/**
  The structured test log (src/test_log.h, src/test_log.cpp): a writer that only ever appends text
  to a file and decides every separator and closing bracket from `phase`, `hasTests` and one flag
  per open "events" array.
 */
module TestLog {
  import opened Json
  import opened JsonText

  type U32 = x: int | 0 <= x < 0x1_0000_0000

  /** Differences of GetTickCount readings wrap at 32 bits. */
  function Since(tick: U32, start: U32): U32 { (tick - start) % 0x1_0000_0000 }

  /** A reading d ms after another, d < 2^32, is d ms since it, even when the counter has wrapped in between. */
  lemma {:induction false} SinceIsElapsed(start: U32, d: U32)
    ensures Since((start + d) % 0x1_0000_0000, start) == d
  {
    if start + d < 0x1_0000_0000 { assert Since(start + d, start) == d; }
    else { assert Since(start + d - 0x1_0000_0000, start) == (d - 0x1_0000_0000) % 0x1_0000_0000 == d; }
  }

  lemma {:induction false} ElapsedSince(tick: U32, start: U32)
    ensures tick == (start + Since(tick, start)) % 0x1_0000_0000
  {
    if tick >= start { assert Since(tick, start) == tick - start; }
    else { assert Since(tick, start) == tick - start + 0x1_0000_0000; }
  }

  datatype Phase = NoSuite | SuiteEvents | Tests | InTest | SuiteDone

  datatype Level = Pass | Fail | Info | ErrorLevel

  /** `__FILE__` and `__LINE__`. */
  datatype Place = Place(file: ByteStr, line: int)

  datatype Option<T> = None | Some(value: T)

  // ---------------------------------------------------------------- string helpers

  function SlashesForward(s: ByteStr): ByteStr {
    seq(|s|, i requires 0 <= i < |s| => if s[i] == '\\' then '/' else s[i])
  }

  /** "/src/" is at i. */
  predicate SrcAt(s: ByteStr, i: int) {
    0 <= i && i + 5 <= |s| && s[i] == '/' && s[i + 1] == 's' && s[i + 2] == 'r' && s[i + 3] == 'c' && s[i + 4] == '/'
  }

  /** What follows the last "/src/" of the path, or all of it when there is none. */
  function NormalizedPath(path: ByteStr): ByteStr { AfterLastSrc(SlashesForward(path), |path|) }

  function AfterLastSrc(s: ByteStr, i: nat): ByteStr {
    if SrcAt(s, i) then s[i + 5..] else if i == 0 then s else AfterLastSrc(s, i - 1)
  }

  /** r is what follows a "/src/" of s, or all of s, and no "/src/" comes later. */
  predicate StartsAfterSrc(s: ByteStr, r: ByteStr) {
    && |r| <= |s| && r == s[|s| - |r|..] && (r == s || SrcAt(s, |s| - |r| - 5))
    && forall j :: |s| - |r| - 5 < j < |s| ==> !SrcAt(s, j)
  }

  lemma {:induction false} StartsAfterSrcIff(s: ByteStr, i: nat, r: ByteStr)
    requires forall j :: i < j < |s| ==> !SrcAt(s, j)
    ensures StartsAfterSrc(s, r) <==> r == AfterLastSrc(s, i)
  {
    if SrcAt(s, i) {
      AfterThisSrc(s, i, r);
    } else if i > 0 {
      StartsAfterSrcIff(s, i - 1, r);
    }
  }

  lemma {:induction false} AfterThisSrc(s: ByteStr, i: nat, r: ByteStr)
    requires SrcAt(s, i) && forall j :: i < j < |s| ==> !SrcAt(s, j)
    ensures StartsAfterSrc(s, r) <==> r == s[i + 5..]
  {
    if StartsAfterSrc(s, r) {
      var k := |s| - |r| - 5;
      assert k >= i;
      assert r != s;
      assert SrcAt(s, k);
    }
  }

  /** What is left holds no further "/src/". */
  lemma {:induction false} NoSrcLeft(s: ByteStr, r: ByteStr, k: nat)
    requires StartsAfterSrc(s, r)
    ensures !SrcAt(r, k)
  {
    assert !SrcAt(s, |s| - |r| + k);
  }

  /**
    A normalised path is the path with forward slashes, from after its last "/src/" on, or all of it if
    there is none.  So it has no backslash and no further "/src/".
   */
  lemma {:induction false} NormalizedPathIsRelative(path: ByteStr, r: ByteStr)
    ensures StartsAfterSrc(SlashesForward(path), r) <==> r == NormalizedPath(path)
    ensures '\\' !in NormalizedPath(path)
    ensures forall k: nat :: !SrcAt(NormalizedPath(path), k)
  {
    var s := SlashesForward(path);
    StartsAfterSrcIff(s, |path|, r);
    StartsAfterSrcIff(s, |path|, NormalizedPath(path));
    forall k: nat ensures !SrcAt(NormalizedPath(path), k) {
      NoSrcLeft(s, NormalizedPath(path), k);
    }
  }

  predicate IsNewline(c: Byte) { c == '\n' || c == '\r' }

  function WithoutTrailingNewlines(s: ByteStr): ByteStr {
    if s != [] && IsNewline(s[|s| - 1]) then WithoutTrailingNewlines(s[..|s| - 1]) else s
  }

  /** r is s without the newlines and carriage returns at its end, and nothing else is gone. */
  predicate Stripped(s: ByteStr, r: ByteStr) {
    r <= s && (forall i :: |r| <= i < |s| ==> IsNewline(s[i])) && (r == [] || !IsNewline(r[|r| - 1]))
  }

  lemma {:induction false} StrippedIsUnique(s: ByteStr, r: ByteStr)
    ensures Stripped(s, r) <==> r == WithoutTrailingNewlines(s)
  {
    if s != [] && IsNewline(s[|s| - 1]) {
      StrippedIsUnique(s[..|s| - 1], r);
    }
  }

  method StripTrailingNewlines(s: ByteStr) returns (r: ByteStr)
    ensures Stripped(s, r)
    ensures r == WithoutTrailingNewlines(s)
  {
    r := s;
    while r != [] && IsNewline(r[|r| - 1])
      invariant r <= s && forall i :: |r| <= i < |s| ==> IsNewline(s[i])
      decreases |r|
    {
      r := r[..|r| - 1];
    }
    StrippedIsUnique(s, r);
  }

  function WithoutLeadingSpaces(s: ByteStr): ByteStr {
    if s != [] && s[0] == ' ' then WithoutLeadingSpaces(s[1..]) else s
  }

  /** The spaces dropped are exactly those before the first other character. */
  lemma {:induction false} LeadingSpaces(s: ByteStr, n: nat)
    requires n <= |s| && (forall i :: 0 <= i < n ==> s[i] == ' ') && (n == |s| || s[n] != ' ')
    ensures WithoutLeadingSpaces(s) == s[n..]
  {
    if n > 0 { LeadingSpaces(s[1..], n - 1); }
  }

  /** A message is the formatted text between its leading spaces and its trailing newlines. */
  lemma {:induction false} MessageIsTrimmed(formatted: ByteStr, i: nat, j: nat)
    requires i <= j <= |formatted|
    requires forall k :: 0 <= k < i ==> formatted[k] == ' '
    requires forall k :: j <= k < |formatted| ==> IsNewline(formatted[k])
    requires (j == 0 || !IsNewline(formatted[j - 1])) && (i == j || formatted[i] != ' ')
    ensures Message(formatted) == formatted[i..j]
  {
    StrippedIsUnique(formatted, formatted[..j]);
    LeadingSpaces(formatted[..j], i);
  }

  /** The message of an event, from the formatted text. */
  function Message(formatted: ByteStr): ByteStr { WithoutLeadingSpaces(WithoutTrailingNewlines(formatted)) }

  function Indent(n: nat): string { seq(n, i => ' ') }

  function LevelName(level: Level): (name: ByteStr)
    ensures IsPlain(name)
  {
    match level
    case Pass => "pass"
    case Fail => "fail"
    case Info => "info"
    case ErrorLevel => "error"
  }

  // ---------------------------------------------------------------- what is recorded

  function UintJson(n: nat): Value { Num(Decimal(n)) }

  function PlaceMembers(place: Place, t: nat): seq<Member> {
    [("file", Str(NormalizedPath(place.file))), ("line", Num(SignedDecimal(place.line))), ("t_ms", UintJson(t))]
  }

  function EventJson(level: Level, message: ByteStr, place: Place, t: nat, fields: LogFields): Value {
    Obj([("level", Str(LevelName(level))), ("message", Str(message))]
        + PlaceMembers(place, t)
        + if fields == [] then [] else [("fields", FieldsJson(fields))])
  }

  function DumpJson(title: ByteStr, data: seq<U8>, place: Place, t: nat): Value {
    Obj([("level", Str("dump")), ("label", Str(title)), ("size", UintJson(|data|)), ("bytes", Str(HexBytes(data)))]
        + PlaceMembers(place, t))
  }

  function ScopeHead(name: ByteStr, place: Place, t: nat): seq<Member> {
    [("scope", Str(name))] + PlaceMembers(place, t)
  }

  function SuiteHead(name: ByteStr, urlBase: Option<ByteStr>): seq<Member> {
    [("schema_version", Num("1"))]
    + (if urlBase.Some? then [("location_url_base", Str(urlBase.value))] else [])
    + [("suite", Str(name))]
  }

  function TestHead(name: ByteStr, source: ByteStr, started: nat): seq<Member> {
    [("name", Str(name)), ("source", Str(NormalizedPath(source))), ("started_ms", UintJson(started))]
  }

  function ResultMembers(passed: bool, ms: nat): seq<Member> {
    [("result", Str(if passed then "pass" else "fail")), ("duration_ms", UintJson(ms))]
  }

  function SummaryMembers(passed: nat, failed: nat, ms: nat): seq<Member> {
    [("summary", Obj([("total", UintJson((passed + failed) % 0x1_0000_0000)),
                      ("passed", UintJson(passed)),
                      ("failed", UintJson(failed))])),
     ("duration_ms", UintJson(ms))]
  }

  /** An open suite, test or scope: the members before its "events", and its events so far. */
  datatype Open = Open(head: seq<Member>, items: seq<Value>)

  function Closed(o: Open): seq<Member> { o.head + [("events", Arr(o.items))] }

  type Levels = ls: seq<Open> | ls != [] witness [Open([], [])]

  function Last(ls: Levels): Open { ls[|ls| - 1] }
  function Init(ls: Levels): seq<Open> { ls[..|ls| - 1] }

  function AddItem(ls: Levels, v: Value): Levels { Init(ls) + [Open(Last(ls).head, Last(ls).items + [v])] }

  /** Ends the innermost scope: it becomes an item of the events array around it. */
  function CloseScope(ls: Levels): Levels {
    if |ls| < 2 then ls else AddItem(Init(ls), Obj(Closed(Last(ls))))
  }

  function CloseAll(ls: Levels): (o: Open)
    decreases |ls|
  {
    if |ls| < 2 then ls[0] else CloseAll(CloseScope(ls))
  }

  /**
    The document recorded since the last BeginSuite.  `below` holds the containers that enclose the
    object being written; it is not empty only when a test was begun, or the suite ended, while a
    scope of the suite was still open.
   */
  datatype Recording =
    | Untracked
    | SuiteOpen(levels: Levels)
    | TestsOpen(below: seq<Frame>, head: seq<Member>, tests: seq<Value>)
    | TestOpen(below: seq<Frame>, head: seq<Member>, tests: seq<Value>, levels: Levels)
    | Finished(below: seq<Frame>, doc: Value)

  predicate HasLevels(r: Recording) { r.SuiteOpen? || r.TestOpen? }

  function WithLevels(r: Recording, levels: Levels): Recording
    requires HasLevels(r)
  {
    if r.SuiteOpen? then SuiteOpen(levels) else TestOpen(r.below, r.head, r.tests, levels)
  }

  function Item(r: Recording, v: Value): Recording {
    if HasLevels(r) then WithLevels(r, AddItem(r.levels, v)) else r
  }

  function Deeper(r: Recording, head: seq<Member>): Recording {
    if HasLevels(r) then WithLevels(r, r.levels + [Open(head, [])]) else r
  }

  function Shallower(r: Recording): Recording {
    if HasLevels(r) then WithLevels(r, CloseScope(r.levels)) else r
  }

  function StartTest(r: Recording, head: seq<Member>): Recording {
    match r
    case SuiteOpen(levels) => TestOpen(Frames(Init(levels)), Closed(Last(levels)), [], [Open(head, [])])
    case TestsOpen(below, suite, tests) => TestOpen(below, suite, tests, [Open(head, [])])
    case _ => r
  }

  function FinishTest(r: Recording, passed: bool, ms: nat): Recording {
    match r
    case TestOpen(below, suite, tests, levels) =>
      TestsOpen(below, suite, tests + [Obj(Closed(CloseAll(levels)) + ResultMembers(passed, ms))])
    case _ => r
  }

  function FinishSuite(r: Recording, passed: nat, failed: nat, ms: nat): Recording {
    match r
    case SuiteOpen(levels) =>
      Finished(Frames(Init(levels)),
               Obj(Closed(Last(levels)) + [("tests", Arr([]))] + SummaryMembers(passed, failed, ms)))
    case TestsOpen(below, suite, tests) =>
      Finished(below, Obj(suite + [("tests", Arr(tests))] + SummaryMembers(passed, failed, ms)))
    case _ => Untracked
  }

  // ---------------------------------------------------------------- the parser state it stands for

  function Frames(ls: seq<Open>): seq<Frame> {
    if ls == [] then []
    else Frames(ls[..|ls| - 1]) + [InObj(ls[|ls| - 1].head, "events"), InArr(ls[|ls| - 1].items)]
  }

  /** Inside an array: a comma is due exactly when it has an item. */
  function ArrayMode(items: seq<Value>): Mode { if items == [] then WantValueOrEnd else WantCommaOrEnd }

  function LevelsImage(outer: seq<Frame>, ls: Levels): Parser {
    Parser(ArrayMode(Last(ls).items), outer + Frames(ls))
  }

  function TestsFrames(below: seq<Frame>, head: seq<Member>, tests: seq<Value>): seq<Frame> {
    below + [InObj(head, "tests"), InArr(tests)]
  }

  /** Where RFC 8259 parsing stands after the text written so far. */
  function Image(r: Recording): Parser
    requires !r.Untracked?
  {
    match r
    case SuiteOpen(levels) => LevelsImage([], levels)
    case TestsOpen(below, head, tests) => Parser(ArrayMode(tests), TestsFrames(below, head, tests))
    case TestOpen(below, head, tests, levels) => LevelsImage(TestsFrames(below, head, tests), levels)
    case Finished(below, doc) => Complete(below, doc)
  }

  /** The containers around the levels. */
  function Outer(r: Recording): seq<Frame>
    requires HasLevels(r)
  {
    if r.SuiteOpen? then [] else TestsFrames(r.below, r.head, r.tests)
  }

  /** One flag per open array; a scope under construction already counts as an item. */
  function Flags(ls: Levels): seq<bool> {
    seq(|ls|, i requires 0 <= i < |ls| => ls[i].items != [] || i < |ls| - 1)
  }

  // The fields of the writer that go with a recording.

  function PhaseOf(r: Recording): Phase {
    match r
    case Untracked => NoSuite
    case SuiteOpen(_) => SuiteEvents
    case TestsOpen(_, _, _) => Tests
    case TestOpen(_, _, _, _) => InTest
    case Finished(_, _) => SuiteDone
  }

  function FlagsOf(r: Recording): seq<bool> { if HasLevels(r) then Flags(r.levels) else [] }

  function HasTestsOf(r: Recording): bool { r.TestOpen? || (r.TestsOpen? && r.tests != []) }

  // ---------------------------------------------------------------- feeding the punctuation

  lemma {:induction false} FramesSnoc(ls: seq<Open>, o: Open)
    ensures Frames(ls + [o]) == Frames(ls) + [InObj(o.head, "events"), InArr(o.items)]
  {
    assert (ls + [o])[..|ls|] == ls;
  }

  lemma {:induction false} IndentIsWs(n: nat)
    ensures AllWs(Indent(n))
  {
  }

  /** The separator and indentation written by BeginEventItem lead to a new value. */
  lemma {:induction false} FeedItemStart(p: Parser, items: seq<Value>, n: nat)
    requires p.mode == ArrayMode(items) && p.stack != [] && p.stack[|p.stack| - 1] == InArr(items)
    ensures Feed(p, (if items != [] then ",\n" else "\n") + Indent(n))
         == Parser(if items == [] then WantValueOrEnd else WantValue, p.stack)
  {
    var sep := if items != [] then ",\n" else "\n";
    FeedAppend(p, sep, Indent(n));
    if items == [] {
      FeedWs(p, "\n");
    } else {
      FeedAppend(p, ",", "\n");
      assert ",\n" == "," + "\n";
      FeedChar(p, ',');
      FeedWs(Step(p, ','), "\n");
    }
    IndentIsWs(n);
    FeedWs(Feed(p, sep), Indent(n));
  }

  /** Adding a value at the innermost array moves the image as `AddItem` moves the levels. */
  lemma {:induction false} ImageAdds(outer: seq<Frame>, ls: Levels, v: Value)
    ensures Complete(outer + Frames(ls), v) == LevelsImage(outer, AddItem(ls, v))
  {
    var o := Last(ls);
    var around := outer + (Frames(Init(ls)) + [InObj(o.head, "events")]);
    CompleteInArray(around, o.items, v);
    assert outer + Frames(ls) == around + [InArr(o.items)];
    FramesSnoc(Init(ls), Open(o.head, o.items + [v]));
    assert outer + Frames(AddItem(ls, v)) == around + [InArr(o.items + [v])];
  }

  lemma {:induction false} CompleteInArray(around: seq<Frame>, items: seq<Value>, v: Value)
    ensures Complete(around + [InArr(items)], v) == Parser(WantCommaOrEnd, around + [InArr(items + [v])])
  {
    assert (around + [InArr(items)])[..|around|] == around;
  }

  lemma {:induction false} FlagsAdd(ls: Levels, v: Value)
    ensures Flags(AddItem(ls, v)) == Flags(ls)[|ls| - 1 := true]
  {
  }

  // ---------------------------------------------------------------- the text of items

  function PlaceEntries(place: Place, t: nat): seq<Entry> {
    [Entry(", ", "file", JsonString(NormalizedPath(place.file)), Str(NormalizedPath(place.file))),
     Entry(", ", "line", SignedDecimal(place.line), Num(SignedDecimal(place.line))),
     Entry(", ", "t_ms", Decimal(t), UintJson(t))]
  }

  /** The two members every event and dump starts with. */
  function ItemHead(level: ByteStr, key: ByteStr, text: ByteStr): seq<Entry> {
    [Entry("", "level", "\"" + level + "\"", Str(level)), Entry(", ", key, JsonString(text), Str(text))]
  }

  function FieldsEntry(fields: LogFields): seq<Entry> {
    if fields == [] then []
    else [Entry(", ", "fields", ObjectText(FieldEntries(fields)), FieldsJson(fields))]
  }

  function DumpBody(data: seq<U8>): seq<Entry> {
    [Entry(", ", "size", Decimal(|data|), UintJson(|data|)),
     Entry(", ", "bytes", "\"" + HexBytes(data) + "\"", Str(HexBytes(data)))]
  }

  function EventEntries(level: Level, message: ByteStr, place: Place, t: nat, fields: LogFields): seq<Entry> {
    ItemHead(LevelName(level), "message", message) + PlaceEntries(place, t) + FieldsEntry(fields)
  }

  function DumpEntries(title: ByteStr, data: seq<U8>, place: Place, t: nat): seq<Entry> {
    ItemHead("dump", "label", title) + DumpBody(data) + PlaceEntries(place, t)
  }

  function ScopeEntries(ws: string, name: ByteStr, place: Place, t: nat): seq<Entry> {
    [Entry(ws, "scope", JsonString(name), Str(name))] + PlaceEntries(place, t)
  }

  lemma {:induction false} PlainReads(s: ByteStr)
    requires IsPlain(s)
    ensures Reads("\"" + s + "\"", Str(s))
  {
    PlainString(s);
    StringReads(s);
  }

  lemma {:induction false} PlaceGood(place: Place, t: nat)
    ensures Good(false, PlaceEntries(place, t))
    ensures Members(PlaceEntries(place, t)) == PlaceMembers(place, t)
  {
    StringReads(NormalizedPath(place.file));
    SignedDecimalReads(place.line);
    SignedDecimalReads(t);
  }

  lemma {:induction false} GoodAppend(first: bool, a: seq<Entry>, b: seq<Entry>)
    requires Good(first, a) && Good(false, b) && a != []
    ensures Good(first, a + b)
    ensures Members(a + b) == Members(a) + Members(b)
  {
  }

  lemma {:induction false} ItemHeadGood(level: ByteStr, key: ByteStr, text: ByteStr)
    requires IsPlain(level)
    ensures Good(true, ItemHead(level, key, text))
    ensures Members(ItemHead(level, key, text)) == [("level", Str(level)), (key, Str(text))]
  {
    PlainReads(level);
    StringReads(text);
  }

  lemma {:induction false} FieldsEntryGood(fields: LogFields)
    ensures Good(false, FieldsEntry(fields))
    ensures Members(FieldsEntry(fields)) == if fields == [] then [] else [("fields", FieldsJson(fields))]
  {
    FieldsRead(fields);
  }

  lemma {:induction false} PairGood(a: Entry, b: Entry)
    requires Reads(a.text, a.value) && Reads(b.text, b.value) && IsSeparator(false, a.sep) && IsSeparator(false, b.sep)
    ensures Good(false, [a, b])
    ensures Members([a, b]) == [(a.key, a.value), (b.key, b.value)]
  {
  }

  lemma {:induction false} DumpBodyGood(data: seq<U8>)
    ensures Good(false, DumpBody(data))
    ensures Members(DumpBody(data)) == [("size", UintJson(|data|)), ("bytes", Str(HexBytes(data)))]
  {
    SignedDecimalReads(|data|);
    HexIsPlain(data);
    PlainReads(HexBytes(data));
    PairGood(DumpBody(data)[0], DumpBody(data)[1]);
  }

  lemma {:induction false} EventGood(level: Level, message: ByteStr, place: Place, t: nat, fields: LogFields)
    ensures Good(true, EventEntries(level, message, place, t, fields))
    ensures Obj(Members(EventEntries(level, message, place, t, fields))) == EventJson(level, message, place, t, fields)
  {
    var a := ItemHead(LevelName(level), "message", message);
    ItemHeadGood(LevelName(level), "message", message);
    PlaceGood(place, t);
    GoodAppend(true, a, PlaceEntries(place, t));
    FieldsEntryGood(fields);
    GoodAppend(true, a + PlaceEntries(place, t), FieldsEntry(fields));
  }

  lemma {:induction false} DumpGood(title: ByteStr, data: seq<U8>, place: Place, t: nat)
    ensures Good(true, DumpEntries(title, data, place, t))
    ensures Obj(Members(DumpEntries(title, data, place, t))) == DumpJson(title, data, place, t)
  {
    var a, b := ItemHead("dump", "label", title), DumpBody(data);
    ItemHeadGood("dump", "label", title);
    DumpBodyGood(data);
    GoodAppend(true, a, b);
    PlaceGood(place, t);
    GoodAppend(true, a + b, PlaceEntries(place, t));
    DumpMembers(title, Str(HexBytes(data)), UintJson(|data|));
  }

  lemma {:induction false} DumpMembers(title: ByteStr, bytes: Value, size: Value)
    ensures [("level", Str("dump")), ("label", Str(title))] + [("size", size), ("bytes", bytes)]
         == [("level", Str("dump")), ("label", Str(title)), ("size", size), ("bytes", bytes)]
  {
  }

  lemma {:induction false} ScopeGood(ws: string, name: ByteStr, place: Place, t: nat)
    requires AllWs(ws)
    ensures Good(true, ScopeEntries(ws, name, place, t))
    ensures Members(ScopeEntries(ws, name, place, t)) == ScopeHead(name, place, t)
  {
    StringReads(name);
    PlaceGood(place, t);
    GoodAppend(true, [Entry(ws, "scope", JsonString(name), Str(name))], PlaceEntries(place, t));
  }

  /** `text` is a self-contained denotation of `v`: nothing is pending after it. */
  ghost predicate Exactly(text: string, v: Value) {
    forall p: Parser :: WantsValue(p) ==> Leads(p, text, Complete(p.stack, v))
  }

  lemma {:induction false} ObjectExact(es: seq<Entry>)
    requires Good(true, es)
    ensures Exactly(ObjectText(es), Obj(Members(es)))
  {
    forall p: Parser | WantsValue(p) ensures Leads(p, ObjectText(es), Complete(p.stack, Obj(Members(es)))) {
      FeedObject(p, es);
      LeadsIsFeed(p, ObjectText(es), Complete(p.stack, Obj(Members(es))));
    }
  }

  /** `text` opens an object with the members `head` and, in it, an "events" array. */
  ghost predicate Opens(text: string, head: seq<Member>) {
    forall p: Parser :: WantsValue(p) ==>
      Leads(p, text, Parser(WantValueOrEnd, p.stack + [InObj(head, "events"), InArr([])]))
  }

  method AppendLocation(out: string, place: Place, ghost es: seq<Entry>) returns (result: string)
    requires Building(out, es)
    ensures Building(result, es + PlaceEntries(place, 0)[..2])
  {
    ghost var e0, e1 := PlaceEntries(place, 0)[0], PlaceEntries(place, 0)[1];
    result := AppendStringMember(out, ", ", "file", NormalizedPath(place.file), es);
    result := AppendLine(result, place.line, es + [e0]);
    assert es + [e0] + [e1] == es + PlaceEntries(place, 0)[..2];
  }

  method AppendLine(out: string, line: int, ghost es: seq<Entry>) returns (result: string)
    requires Building(out, es)
    ensures Building(result, es + [Entry(", ", "line", SignedDecimal(line), Num(SignedDecimal(line)))])
  {
    Extended(out, es, Entry(", ", "line", SignedDecimal(line), Num(SignedDecimal(line))));
    result := out + (", " + Key("line")) + SignedDecimal(line);
  }

  method AppendTime(out: string, t: nat, ghost place: Place, ghost es: seq<Entry>) returns (result: string)
    requires Building(out, es + PlaceEntries(place, 0)[..2])
    ensures Building(result, es + PlaceEntries(place, t))
  {
    ghost var es' := es + PlaceEntries(place, 0)[..2];
    Extended(out, es', Entry(", ", "t_ms", Decimal(t), UintJson(t)));
    result := out + (", " + Key("t_ms")) + Decimal(t);
    assert es' + [Entry(", ", "t_ms", Decimal(t), UintJson(t))] == es + PlaceEntries(place, t);
  }

  method OpenItem(level: ByteStr, key: ByteStr, text: ByteStr) returns (out: string)
    requires IsPlain(level) && IsPlain(key)
    ensures Building(out, ItemHead(level, key, text))
  {
    ghost var es := ItemHead(level, key, text);
    out := "{";
    assert Building(out, []);
    Extended(out, [], es[0]);
    out := out + ("" + Key("level")) + ("\"" + level + "\"");
    Extended(out, [] + [es[0]], es[1]);
    out := AppendJsonString(out + (", " + Key(key)), text);
    assert [] + [es[0]] + [es[1]] == es;
  }

  method AppendFieldsMember(out: string, fields: LogFields, ghost es: seq<Entry>) returns (result: string)
    requires Building(out, es)
    ensures Building(result, es + FieldsEntry(fields))
  {
    result := out;
    if fields == [] {
      assert es == es + FieldsEntry(fields);
    } else {
      Extended(out, es, FieldsEntry(fields)[0]);
      result := AppendFields(out + (", " + Key("fields")), fields);
      assert es + [FieldsEntry(fields)[0]] == es + FieldsEntry(fields);
    }
  }

  /** The object that Event appends. */
  method EventText(level: Level, message: ByteStr, place: Place, t: nat, fields: LogFields) returns (out: string)
    ensures Exactly(out, EventJson(level, message, place, t, fields))
  {
    out := OpenItem(LevelName(level), "message", message);
    ghost var es := ItemHead(LevelName(level), "message", message);
    out := AppendLocation(out, place, es);
    out := AppendTime(out, t, place, es);
    es := es + PlaceEntries(place, t);
    out := AppendFieldsMember(out, fields, es);
    es := es + FieldsEntry(fields);
    out := out + "}";
    EventGood(level, message, place, t, fields);
    ObjectExact(es);
  }

  method AppendDumpBody(out: string, data: seq<U8>, ghost es: seq<Entry>) returns (result: string)
    requires Building(out, es)
    ensures Building(result, es + DumpBody(data))
  {
    ghost var body := DumpBody(data);
    Extended(out, es, body[0]);
    result := out + (", " + Key("size")) + Decimal(|data|);
    Extended(result, es + [body[0]], body[1]);
    ghost var before := result + (", " + Key("bytes"));
    result := AppendHex(result + (", " + Key("bytes")) + "\"", data);
    Assoc(before, "\"", HexBytes(data));
    Assoc(before, "\"" + HexBytes(data), "\"");
    result := result + "\"";
    assert es + [body[0]] + [body[1]] == es + body;
  }

  /** The object that HexDump appends. */
  method DumpText(title: ByteStr, data: seq<U8>, place: Place, t: nat) returns (out: string)
    ensures Exactly(out, DumpJson(title, data, place, t))
  {
    out := OpenItem("dump", "label", title);
    ghost var es := ItemHead("dump", "label", title);
    out := AppendDumpBody(out, data, es);
    es := es + DumpBody(data);
    out := AppendLocation(out, place, es);
    out := AppendTime(out, t, place, es);
    es := es + PlaceEntries(place, t);
    out := out + "}";
    DumpGood(title, data, place, t);
    ObjectExact(es);
  }

  // ---------------------------------------------------------------- text and recording move together

  /** Where the next item of the innermost array goes, after the separator. */
  function ItemState(r: Recording): Parser
    requires HasLevels(r)
  {
    Parser(if Last(r.levels).items == [] then WantValueOrEnd else WantValue, Image(r).stack)
  }

  function ItemSeparator(hasItem: bool, indent: nat): string { (if hasItem then ",\n" else "\n") + Indent(indent) }

  lemma {:induction false} ItemStartLeads(p: Parser, items: seq<Value>, n: nat)
    requires p.mode == ArrayMode(items) && p.stack != [] && p.stack[|p.stack| - 1] == InArr(items)
    ensures Leads(p, ItemSeparator(items != [], n), Parser(if items == [] then WantValueOrEnd else WantValue, p.stack))
  {
    FeedItemStart(p, items, n);
    LeadsIsFeed(p, ItemSeparator(items != [], n), Parser(if items == [] then WantValueOrEnd else WantValue, p.stack));
  }

  lemma {:induction false} ItemRecorded(doc: string, r: Recording, indent: nat, text: string, v: Value)
    requires HasLevels(r) && Exactly(text, v) && Leads(START, doc, Image(r))
    ensures Leads(START, doc + (ItemSeparator(Last(r.levels).items != [], indent) + text), Image(Item(r, v)))
    ensures FlagsOf(Item(r, v)) == FlagsOf(r)[|r.levels| - 1 := true]
  {
    var start := ItemSeparator(Last(r.levels).items != [], indent);
    ItemStartLeads(Image(r), Last(r.levels).items, indent);
    ImageAdds(Outer(r), r.levels, v);
    FlagsAdd(r.levels, v);
    assert WantsValue(ItemState(r));
    LeadsOn(Image(r), start, ItemState(r), text, Image(Item(r, v)));
    LeadsOn(START, doc, Image(r), start + text, Image(Item(r, v)));
  }

  lemma {:induction false} ScopeOpened(r: Recording, head: seq<Member>)
    requires HasLevels(r)
    ensures Parser(WantValueOrEnd, Image(r).stack + [InObj(head, "events"), InArr([])]) == Image(Deeper(r, head))
    ensures Flags(Deeper(r, head).levels) == Flags(r.levels)[|r.levels| - 1 := true] + [false]
  {
    FramesSnoc(r.levels, Open(head, []));
  }

  /** An object text that stops inside its "events" array. */
  function HeadText(es: seq<Entry>, sep: string): string { ("{" + EntriesText(es)) + (sep + Key("events")) + "[" }

  lemma {:induction false} LevelOpensAt(p: Parser, es: seq<Entry>, sep: string)
    requires Good(true, es) && es != [] && IsSeparator(false, sep) && WantsValue(p)
    ensures Leads(p, HeadText(es, sep), Parser(WantValueOrEnd, p.stack + [InObj(Members(es), "events"), InArr([])]))
  {
    FeedOpenObject(p, es);
    EventsOpen(p, "{" + EntriesText(es), Members(es), sep);
  }

  lemma {:induction false} EventsOpen(p: Parser, out: string, ms: seq<Member>, sep: string)
    requires InObject(Feed(p, out), p.stack, ms) && ms != [] && IsSeparator(false, sep)
    ensures Leads(p, out + (sep + Key("events")) + "[",
                  Parser(WantValueOrEnd, p.stack + [InObj(ms, "events"), InArr([])]))
  {
    OpenArray(p, out, p.stack, ms, sep, "events");
    LeadsIsFeed(p, out + (sep + Key("events")) + "[",
                Parser(WantValueOrEnd, p.stack + [InObj(ms, "events"), InArr([])]));
  }

  lemma {:induction false} LevelOpens(es: seq<Entry>, sep: string)
    requires Good(true, es) && es != [] && IsSeparator(false, sep)
    ensures Opens(HeadText(es, sep), Members(es))
  {
    forall p: Parser | WantsValue(p)
      ensures Leads(p, HeadText(es, sep), Parser(WantValueOrEnd, p.stack + [InObj(Members(es), "events"), InArr([])]))
    {
      LevelOpensAt(p, es, sep);
    }
  }

  lemma {:induction false} ScopeRecorded(doc: string, r: Recording, indent: nat, text: string, head: seq<Member>)
    requires HasLevels(r) && Opens(text, head) && Leads(START, doc, Image(r))
    ensures Leads(START, doc + (ItemSeparator(Last(r.levels).items != [], indent) + text), Image(Deeper(r, head)))
    ensures FlagsOf(Deeper(r, head)) == FlagsOf(r)[|r.levels| - 1 := true] + [false]
  {
    var start := ItemSeparator(Last(r.levels).items != [], indent);
    ItemStartLeads(Image(r), Last(r.levels).items, indent);
    ScopeOpened(r, head);
    assert WantsValue(ItemState(r));
    LeadsOn(Image(r), start, ItemState(r), text, Image(Deeper(r, head)));
    LeadsOn(START, doc, Image(r), start + text, Image(Deeper(r, head)));
  }

  lemma {:induction false} ScopeClosed(outer: seq<Frame>, ls: Levels, ws: string, ws': string)
    requires |ls| >= 2 && AllWs(ws) && AllWs(ws')
    ensures Leads(LevelsImage(outer, ls), CloseText(ws, [], ws'), LevelsImage(outer, CloseScope(ls)))
  {
    var o, st := Last(ls), outer + Frames(Init(ls));
    var p := LevelsImage(outer, ls);
    assert p.stack == st + [InObj(o.head, "events"), InArr(o.items)];
    FeedClose(p, st, o.head, "events", o.items, ws, [], ws');
    assert Closed(o) + Members([]) == Closed(o);
    ImageAdds(outer, Init(ls), Obj(Closed(o)));
  }

  lemma {:induction false} ScopeEndRecorded(doc: string, r: Recording, ws: string, ws': string)
    requires HasLevels(r) && |r.levels| >= 2 && Leads(START, doc, Image(r)) && AllWs(ws) && AllWs(ws')
    ensures Leads(START, doc + CloseText(ws, [], ws'), Image(Shallower(r)))
    ensures FlagsOf(Shallower(r)) == FlagsOf(r)[..|r.levels| - 1]
  {
    ScopeClosed(Outer(r), r.levels, ws, ws');
    LeadsOn(START, doc, Image(r), CloseText(ws, [], ws'), Image(Shallower(r)));
  }

  // The remaining texts, as src/test_log.cpp spells them.

  function UrlEntry(urlBase: Option<ByteStr>): seq<Entry> {
    if urlBase.Some?
    then [Entry(",\n  ", "location_url_base", JsonString(urlBase.value), Str(urlBase.value))] else []
  }

  function VersionEntry(): Entry { Entry("\n  ", "schema_version", "1", Num("1")) }

  function SuiteEntries(name: ByteStr, urlBase: Option<ByteStr>): seq<Entry> {
    [VersionEntry()] + UrlEntry(urlBase)
    + [Entry(",\n  ", "suite", JsonString(name), Str(name))]
  }

  lemma {:induction false} SuiteGood(name: ByteStr, urlBase: Option<ByteStr>)
    ensures Good(true, SuiteEntries(name, urlBase))
    ensures Members(SuiteEntries(name, urlBase)) == SuiteHead(name, urlBase)
  {
    var a := [VersionEntry()];
    assert IsNumber("1") by { assert "1"[1..] == ""; }
    NumberReads("1");
    if urlBase.Some? { StringReads(urlBase.value); }
    GoodAppend(true, a, UrlEntry(urlBase));
    StringReads(name);
    GoodAppend(true, a + UrlEntry(urlBase), [Entry(",\n  ", "suite", JsonString(name), Str(name))]);
  }

  lemma {:induction false} SuiteStarted(text: string, head: seq<Member>)
    requires Opens(text, head)
    ensures Leads(START, text, Image(SuiteOpen([Open(head, [])])))
  {
    assert WantsValue(START);
    SingleLevel([], Open(head, []));
    assert START.stack + [InObj(head, "events"), InArr([])] == [] + [InObj(head, "events"), InArr([])];
  }

  function TestsStart(): string { "" + ("\n" + Indent(2)) + "]" + (",\n  " + Key("tests")) + "[" }

  lemma {:induction false} TestsStarted(outer: seq<Frame>, ls: Levels)
    ensures Leads(LevelsImage(outer, ls), TestsStart(),
                  Parser(WantValueOrEnd, TestsFrames(outer + Frames(Init(ls)), Closed(Last(ls)), [])))
  {
    var p, o, st := LevelsImage(outer, ls), Last(ls), outer + Frames(Init(ls));
    assert p.stack == st + [InObj(o.head, "events"), InArr(o.items)];
    CloseArray(p, "", st, o.head, "events", o.items, "\n" + Indent(2));
    OpenArray(p, "" + ("\n" + Indent(2)) + "]", st, Closed(o), ",\n  ", "tests");
    LeadsIsFeed(p, TestsStart(), Parser(WantValueOrEnd, TestsFrames(st, Closed(o), [])));
  }

  function TestEntries(name: ByteStr, source: ByteStr, started: nat): seq<Entry> {
    [Entry("\n      ", "name", JsonString(name), Str(name)),
     Entry(",\n      ", "source", JsonString(NormalizedPath(source)), Str(NormalizedPath(source))),
     Entry(",\n      ", "started_ms", Decimal(started), UintJson(started))]
  }

  lemma {:induction false} TestGood(name: ByteStr, source: ByteStr, started: nat)
    ensures Good(true, TestEntries(name, source, started))
    ensures Members(TestEntries(name, source, started)) == TestHead(name, source, started)
  {
    StringReads(name);
    StringReads(NormalizedPath(source));
    SignedDecimalReads(started);
  }

  lemma {:induction false} SingleLevel(outer: seq<Frame>, o: Open)
    ensures LevelsImage(outer, [o]) == Parser(ArrayMode(o.items), outer + [InObj(o.head, "events"), InArr(o.items)])
  {
    FramesSnoc([], o);
    assert [] + [o] == [o];
  }

  lemma {:induction false} TestStarted(below: seq<Frame>, suite: seq<Member>, tests: seq<Value>, text: string,
      head: seq<Member>)
    requires Opens(text, head)
    ensures Leads(Image(TestsOpen(below, suite, tests)), ItemSeparator(tests != [], 4) + text,
                  Image(TestOpen(below, suite, tests, [Open(head, [])])))
  {
    var st := TestsFrames(below, suite, tests);
    var p, q := Parser(ArrayMode(tests), st), Parser(if tests == [] then WantValueOrEnd else WantValue, st);
    ItemStartLeads(p, tests, 4);
    SingleLevel(st, Open(head, []));
    OpensAt(q, text, head, LevelsImage(st, [Open(head, [])]));
    LeadsOn(p, ItemSeparator(tests != [], 4), q, text, LevelsImage(st, [Open(head, [])]));
  }

  lemma {:induction false} OpensAt(q: Parser, text: string, head: seq<Member>, r: Parser)
    requires Opens(text, head) && WantsValue(q)
    requires r == Parser(WantValueOrEnd, q.stack + [InObj(head, "events"), InArr([])])
    ensures Leads(q, text, r)
  {
  }

  function ResultEntry(passed: bool): Entry {
    Entry(",\n      ", "result", if passed then "\"pass\"" else "\"fail\"", Str(if passed then "pass" else "fail"))
  }

  function ResultEntries(passed: bool, ms: nat): seq<Entry> {
    [ResultEntry(passed),
     DurationEntry(",\n      ", ms)]
  }

  function DurationEntry(sep: string, ms: nat): Entry { Entry(sep, "duration_ms", Decimal(ms), UintJson(ms)) }

  lemma {:induction false} ResultGood(passed: bool, ms: nat)
    ensures Good(false, ResultEntries(passed, ms)) && Members(ResultEntries(passed, ms)) == ResultMembers(passed, ms)
  {
    PlainReads("pass");
    PlainReads("fail");
    assert "\"" + "pass" + "\"" == "\"pass\"" && "\"" + "fail" + "\"" == "\"fail\"";
    SignedDecimalReads(ms);
    PairGood(ResultEntries(passed, ms)[0], ResultEntries(passed, ms)[1]);
  }

  function TestEnd(passed: bool, ms: nat): string {
    CloseText("\n" + Indent(6), ResultEntries(passed, ms), "\n    ")
  }

  lemma {:induction false} TestEnded(below: seq<Frame>, suite: seq<Member>, tests: seq<Value>, o: Open, passed: bool,
      ms: nat)
    ensures Leads(LevelsImage(TestsFrames(below, suite, tests), [o]), TestEnd(passed, ms),
                  Parser(WantCommaOrEnd,
                         TestsFrames(below, suite, tests + [Obj(Closed(o) + ResultMembers(passed, ms))])))
  {
    var st, around := TestsFrames(below, suite, tests), below + [InObj(suite, "tests")];
    var test := Obj(Closed(o) + ResultMembers(passed, ms));
    SingleLevel(st, o);
    ResultGood(passed, ms);
    FeedClose(LevelsImage(st, [o]), st, o.head, "events", o.items,
              "\n" + Indent(6), ResultEntries(passed, ms), "\n    ");
    CompleteInArray(around, tests, test);
    assert st == around + [InArr(tests)];
    assert TestsFrames(below, suite, tests + [test]) == around + [InArr(tests + [test])];
  }

  function CountEntries(passed: nat, failed: nat): seq<Entry> {
    [Entry("", "total", Decimal((passed + failed) % 0x1_0000_0000), UintJson((passed + failed) % 0x1_0000_0000)),
     Entry(", ", "passed", Decimal(passed), UintJson(passed)),
     Entry(", ", "failed", Decimal(failed), UintJson(failed))]
  }

  function SummaryEntries(passed: nat, failed: nat, ms: nat): seq<Entry> {
    [SummaryEntry(passed, failed), DurationEntry(",\n  ", ms)]
  }

  function SummaryEntry(passed: nat, failed: nat): Entry {
    Entry(",\n  ", "summary", ObjectText(CountEntries(passed, failed)), Obj(Members(CountEntries(passed, failed))))
  }

  lemma {:induction false} CountsGood(passed: nat, failed: nat)
    ensures Good(true, CountEntries(passed, failed))
    ensures Members(CountEntries(passed, failed)) ==
            [("total", UintJson((passed + failed) % 0x1_0000_0000)),
             ("passed", UintJson(passed)), ("failed", UintJson(failed))]
  {
    SignedDecimalReads((passed + failed) % 0x1_0000_0000);
    SignedDecimalReads(passed);
    SignedDecimalReads(failed);
  }

  lemma {:induction false} SummaryGood(passed: nat, failed: nat, ms: nat)
    ensures Good(false, SummaryEntries(passed, failed, ms))
    ensures Members(SummaryEntries(passed, failed, ms)) == SummaryMembers(passed, failed, ms)
  {
    CountsGood(passed, failed);
    ObjectReads(CountEntries(passed, failed));
    SignedDecimalReads(ms);
    PairGood(SummaryEntries(passed, failed, ms)[0], SummaryEntries(passed, failed, ms)[1]);
  }

  lemma {:induction false} EmptyArrayReads()
    ensures Reads("[]", Arr([]))
  {
    forall p: Parser | WantsValue(p) ensures Settle(Feed(p, "[]")) == Complete(p.stack, Arr([])) {
      EmptyArrayAt(p, Parser(WantValueOrEnd, p.stack + [InArr([])]));
    }
  }

  lemma {:induction false} EmptyArrayAt(p: Parser, q: Parser)
    requires WantsValue(p) && q == Parser(WantValueOrEnd, p.stack + [InArr([])])
    ensures Feed(p, "[]") == Complete(p.stack, Arr([]))
  {
    FeedOpen(p);
    FeedAppend(p, "[", "]");
    assert "[" + "]" == "[]";
    FeedChar(q, ']');
    assert q.stack[..|q.stack| - 1] == p.stack;
  }

  function NoTestsEntry(noTests: bool): seq<Entry> {
    if noTests then [Entry(",\n  ", "tests", "[]", Arr([]))] else []
  }

  /** The members after the last array: an empty "tests" when no test was begun. */
  function EndEntries(noTests: bool, passed: nat, failed: nat, ms: nat): seq<Entry> {
    NoTestsEntry(noTests) + SummaryEntries(passed, failed, ms)
  }

  lemma {:induction false} EndGood(noTests: bool, passed: nat, failed: nat, ms: nat)
    ensures Good(false, EndEntries(noTests, passed, failed, ms))
    ensures Members(EndEntries(noTests, passed, failed, ms))
         == (if noTests then [("tests", Arr([]))] else []) + SummaryMembers(passed, failed, ms)
  {
    SummaryGood(passed, failed, ms);
    if noTests {
      EmptyArrayReads();
      GoodAppend(false, [Entry(",\n  ", "tests", "[]", Arr([]))], SummaryEntries(passed, failed, ms));
    } else {
      assert EndEntries(noTests, passed, failed, ms) == SummaryEntries(passed, failed, ms);
    }
  }

  function SuiteEnd(noTests: bool, passed: nat, failed: nat, ms: nat): string {
    CloseText("\n" + Indent(2), EndEntries(noTests, passed, failed, ms), "\n") + "\n"
  }

  lemma {:induction false} SuiteEnded(r: Recording, passed: nat, failed: nat, ms: nat)
    requires r.SuiteOpen? || r.TestsOpen?
    ensures Leads(Image(r), SuiteEnd(r.SuiteOpen?, passed, failed, ms), Image(FinishSuite(r, passed, failed, ms)))
  {
    var p, es := Image(r), EndEntries(r.SuiteOpen?, passed, failed, ms);
    var below := if r.SuiteOpen? then Frames(Init(r.levels)) else r.below;
    var head := if r.SuiteOpen? then Last(r.levels).head else r.head;
    var key := if r.SuiteOpen? then "events" else "tests";
    var items := if r.SuiteOpen? then Last(r.levels).items else r.tests;
    assert p == Parser(ArrayMode(items), below + [InObj(head, key), InArr(items)]);
    EndGood(r.SuiteOpen?, passed, failed, ms);
    FeedClose(p, below, head, key, items, "\n" + Indent(2), es, "\n");
    var doc := Obj(head + [(key, Arr(items))] + Members(es));
    EndDocument(r, passed, failed, ms);
    assert Complete(below, doc) == Image(FinishSuite(r, passed, failed, ms));
    TrailingNewline(below, doc);
    LeadsOn(p, CloseText("\n" + Indent(2), es, "\n"), Complete(below, doc), "\n", Complete(below, doc));
  }

  lemma {:induction false} EndDocument(r: Recording, passed: nat, failed: nat, ms: nat)
    requires r.SuiteOpen? || r.TestsOpen?
    ensures r.SuiteOpen? ==>
            FinishSuite(r, passed, failed, ms) == Finished(Frames(Init(r.levels)),
              Obj(Closed(Last(r.levels)) + ([("tests", Arr([]))] + SummaryMembers(passed, failed, ms))))
    ensures r.TestsOpen? ==>
            FinishSuite(r, passed, failed, ms) == Finished(r.below,
              Obj(r.head + [("tests", Arr(r.tests))] + ([] + SummaryMembers(passed, failed, ms))))
  {
    if r.SuiteOpen? {
      var a, b, c := Closed(Last(r.levels)), [("tests", Arr([]))], SummaryMembers(passed, failed, ms);
      assert a + b + c == a + (b + c);
    } else {
      assert [] + SummaryMembers(passed, failed, ms) == SummaryMembers(passed, failed, ms);
    }
  }

  lemma {:induction false} TrailingNewline(below: seq<Frame>, doc: Value)
    ensures Leads(Complete(below, doc), "\n", Complete(below, doc))
  {
    FeedWs(Complete(below, doc), "\n");
    LeadsIsFeed(Complete(below, doc), "\n", Complete(below, doc));
  }

  // ---------------------------------------------------------------- building those texts

  /** The object that BeginScope leaves open. */
  method ScopeText(indent: nat, name: ByteStr, place: Place, t: nat) returns (out: string)
    ensures Opens(out, ScopeHead(name, place, t))
  {
    ghost var es := ScopeEntries("\n" + Indent(indent + 2), name, place, t);
    ScopeGood("\n" + Indent(indent + 2), name, place, t);
    out := OpenScopeObject(indent, name, place, t);
    out := EndHead(out, es, ",\n" + Indent(indent + 2));
  }

  method OpenScopeObject(indent: nat, name: ByteStr, place: Place, t: nat) returns (out: string)
    ensures Building(out, ScopeEntries("\n" + Indent(indent + 2), name, place, t))
  {
    var sep := "\n" + Indent(indent + 2);
    ghost var first := Entry(sep, "scope", JsonString(name), Str(name));
    out := OpenNamed(sep, "scope", name);
    out := AppendLocation(out, place, [first]);
    out := AppendTime(out, t, place, [first]);
  }

  /** An object with one member, whose value is a string. */
  method OpenNamed(sep: string, key: ByteStr, value: ByteStr) returns (out: string)
    requires IsPlain(key)
    ensures Building(out, [Entry(sep, key, JsonString(value), Str(value))])
  {
    out := "{";
    assert Building(out, []);
    out := AppendStringMember(out, sep, key, value, []);
    assert [] + [Entry(sep, key, JsonString(value), Str(value))] == [Entry(sep, key, JsonString(value), Str(value))];
  }

  /** The "events" array at the end of an open object. */
  method EndHead(out: string, ghost es: seq<Entry>, sep: string) returns (result: string)
    requires Building(out, es) && Good(true, es) && es != [] && IsSeparator(false, sep)
    ensures Opens(result, Members(es))
  {
    result := out + (sep + Key("events")) + "[";
    assert result == HeadText(es, sep);
    LevelOpens(es, sep);
  }

  method AppendUrl(out: string, urlBase: Option<ByteStr>, ghost es: seq<Entry>) returns (result: string)
    requires Building(out, es)
    ensures Building(result, es + UrlEntry(urlBase))
  {
    result := out;
    if urlBase.Some? {
      Extended(out, es, UrlEntry(urlBase)[0]);
      result := AppendJsonString(out + (",\n  " + Key("location_url_base")), urlBase.value);
      assert es + [UrlEntry(urlBase)[0]] == es + UrlEntry(urlBase);
    } else {
      assert es == es + UrlEntry(urlBase);
    }
  }

  method SuiteText(name: ByteStr, urlBase: Option<ByteStr>) returns (out: string)
    ensures Opens(out, SuiteHead(name, urlBase))
  {
    SuiteGood(name, urlBase);
    out := OpenSuiteObject(name, urlBase);
    out := EndHead(out, SuiteEntries(name, urlBase), ",\n  ");
  }

  method OpenSuiteObject(name: ByteStr, urlBase: Option<ByteStr>) returns (out: string)
    ensures Building(out, SuiteEntries(name, urlBase))
  {
    out := OpenVersion();
    out := AppendUrl(out, urlBase, [VersionEntry()]);
    out := AppendStringMember(out, ",\n  ", "suite", name, [VersionEntry()] + UrlEntry(urlBase));
  }

  method OpenVersion() returns (out: string)
    ensures Building(out, [VersionEntry()])
  {
    out := "{";
    assert Building(out, []);
    Extended(out, [], VersionEntry());
    assert [] + [VersionEntry()] == [VersionEntry()];
    out := out + ("\n  " + Key("schema_version")) + "1";
  }

  method TestText(name: ByteStr, source: ByteStr, started: nat) returns (out: string)
    ensures Opens(out, TestHead(name, source, started))
  {
    TestGood(name, source, started);
    out := OpenTestObject(name, source, started);
    out := EndHead(out, TestEntries(name, source, started), ",\n      ");
  }

  /** Appends a member whose value is a string. */
  method AppendStringMember(out: string, sep: string, key: ByteStr, value: ByteStr, ghost es: seq<Entry>)
    returns (result: string)
    requires Building(out, es) && IsPlain(key)
    ensures Building(result, es + [Entry(sep, key, JsonString(value), Str(value))])
  {
    Extended(out, es, Entry(sep, key, JsonString(value), Str(value)));
    result := AppendJsonString(out + (sep + Key(key)), value);
  }

  method OpenTestObject(name: ByteStr, source: ByteStr, started: nat) returns (out: string)
    ensures Building(out, TestEntries(name, source, started))
  {
    ghost var es := TestEntries(name, source, started);
    out := OpenNamed("\n      ", "name", name);
    out := AppendStringMember(out, ",\n      ", "source", NormalizedPath(source), [es[0]]);
    out := AppendStarted(out, started, [es[0]] + [es[1]]);
    assert [es[0]] + [es[1]] + [es[2]] == es;
  }

  method AppendStarted(out: string, started: nat, ghost es: seq<Entry>) returns (result: string)
    requires Building(out, es)
    ensures Building(result, es + [Entry(",\n      ", "started_ms", Decimal(started), UintJson(started))])
  {
    Extended(out, es, Entry(",\n      ", "started_ms", Decimal(started), UintJson(started)));
    result := out + (",\n      " + Key("started_ms")) + Decimal(started);
  }

  /** A text that ends with the members `es`, and one more. */
  lemma {:induction false} MemberAfter(text: string, es: seq<Entry>, e: Entry)
    requires IsPlain(e.key)
    ensures text + EntriesText(es) + (e.sep + Key(e.key)) + e.text == text + EntriesText(es + [e])
  {
    var k, t := e.sep + Key(e.key), EntriesText(es);
    KeyIsLiteral(e.key);
    EntriesSnoc(es, e);
    Assoc(text, t, k);
    Assoc(text, t + k, e.text);
  }

  lemma {:induction false} NoMembers(text: string)
    ensures text + EntriesText([]) == text
  {
  }

  /** What `text` does to a test with no scope open. */
  ghost predicate EndsTest(text: string, passed: bool, ms: nat) {
    forall r: Recording :: r.TestOpen? && |r.levels| == 1 ==> Leads(Image(r), text, Image(FinishTest(r, passed, ms)))
  }

  lemma {:induction false} TestEndEnds(passed: bool, ms: nat)
    ensures EndsTest(TestEnd(passed, ms), passed, ms)
  {
    forall r: Recording | r.TestOpen? && |r.levels| == 1
      ensures Leads(Image(r), TestEnd(passed, ms), Image(FinishTest(r, passed, ms)))
    {
      assert r.levels == [r.levels[0]];
      TestEnded(r.below, r.head, r.tests, r.levels[0], passed, ms);
    }
  }

  method TestEndText(passed: bool, ms: nat) returns (out: string)
    ensures EndsTest(out, passed, ms)
  {
    out := WriteTestEnd(passed, ms);
    TestEndEnds(passed, ms);
  }

  method WriteTestEnd(passed: bool, ms: nat) returns (out: string)
    ensures out == TestEnd(passed, ms)
  {
    out := "" + ("\n" + Indent(6)) + "]";
    ghost var start := out;
    out := AppendResult(out, passed);
    out := AppendDuration(out, ",\n      ", ms, start, [ResultEntry(passed)]);
    assert [ResultEntry(passed)] + [DurationEntry(",\n      ", ms)] == ResultEntries(passed, ms);
    out := out + ("\n    " + "}");
  }

  method AppendResult(start: string, passed: bool) returns (out: string)
    ensures out == start + EntriesText([ResultEntry(passed)])
  {
    NoMembers(start);
    MemberAfter(start, [], ResultEntry(passed));
    assert [] + [ResultEntry(passed)] == [ResultEntry(passed)];
    out := start + (",\n      " + Key("result"));
    out := out + if passed then "\"pass\"" else "\"fail\"";
  }

  method CountsText(passed: nat, failed: nat) returns (out: string)
    ensures out == ObjectText(CountEntries(passed, failed))
  {
    ghost var es := CountEntries(passed, failed);
    out := "{";
    assert Building(out, []);
    Extended(out, [], es[0]);
    out := out + ("" + Key("total")) + Decimal((passed + failed) % 0x1_0000_0000);
    Extended(out, [] + [es[0]], es[1]);
    out := out + (", " + Key("passed")) + Decimal(passed);
    Extended(out, [] + [es[0]] + [es[1]], es[2]);
    out := out + (", " + Key("failed")) + Decimal(failed);
    assert [] + [es[0]] + [es[1]] + [es[2]] == es;
    out := out + "}";
  }

  method AppendNoTests(start: string, noTests: bool) returns (out: string)
    ensures out == start + EntriesText(NoTestsEntry(noTests))
  {
    out := start;
    NoMembers(start);
    if noTests {
      MemberAfter(start, [], NoTestsEntry(noTests)[0]);
      assert [] + [NoTestsEntry(noTests)[0]] == NoTestsEntry(noTests);
      out := out + (",\n  " + Key("tests")) + "[]";
    }
  }

  method AppendSummary(out: string, passed: nat, failed: nat, ghost start: string, ghost none: seq<Entry>)
    returns (result: string)
    requires out == start + EntriesText(none)
    ensures result == start + EntriesText(none + [SummaryEntry(passed, failed)])
  {
    var counts := CountsText(passed, failed);
    MemberAfter(start, none, SummaryEntry(passed, failed));
    result := out + (",\n  " + Key("summary")) + counts;
  }

  method AppendDuration(out: string, sep: string, ms: nat, ghost start: string, ghost es: seq<Entry>)
    returns (result: string)
    requires out == start + EntriesText(es)
    ensures result == start + EntriesText(es + [DurationEntry(sep, ms)])
  {
    MemberAfter(start, es, DurationEntry(sep, ms));
    result := out + (sep + Key("duration_ms")) + Decimal(ms);
  }

  /** What `text` does to a suite outside its tests; `noTests` tells whether one was begun. */
  ghost predicate EndsSuite(text: string, noTests: bool, passed: nat, failed: nat, ms: nat) {
    forall r: Recording :: (if noTests then r.SuiteOpen? else r.TestsOpen?) ==>
      Leads(Image(r), text, Image(FinishSuite(r, passed, failed, ms)))
  }

  lemma {:induction false} SuiteEndEnds(noTests: bool, passed: nat, failed: nat, ms: nat)
    ensures EndsSuite(SuiteEnd(noTests, passed, failed, ms), noTests, passed, failed, ms)
  {
    forall r: Recording | if noTests then r.SuiteOpen? else r.TestsOpen?
      ensures Leads(Image(r), SuiteEnd(noTests, passed, failed, ms), Image(FinishSuite(r, passed, failed, ms)))
    {
      SuiteEnded(r, passed, failed, ms);
    }
  }

  method SuiteEndText(noTests: bool, passed: nat, failed: nat, ms: nat) returns (out: string)
    ensures EndsSuite(out, noTests, passed, failed, ms)
  {
    out := WriteSuiteEnd(noTests, passed, failed, ms);
    SuiteEndEnds(noTests, passed, failed, ms);
  }

  method WriteSuiteEnd(noTests: bool, passed: nat, failed: nat, ms: nat) returns (out: string)
    ensures out == SuiteEnd(noTests, passed, failed, ms)
  {
    out := "" + ("\n" + Indent(2)) + "]";
    out := AppendEnd(out, noTests, passed, failed, ms);
    out := out + ("\n" + "}") + "\n";
  }

  method AppendEnd(start: string, noTests: bool, passed: nat, failed: nat, ms: nat) returns (out: string)
    ensures out == start + EntriesText(EndEntries(noTests, passed, failed, ms))
  {
    ghost var none, summary := NoTestsEntry(noTests), SummaryEntry(passed, failed);
    out := AppendNoTests(start, noTests);
    out := AppendSummary(out, passed, failed, start, none);
    out := AppendDuration(out, ",\n  ", ms, start, none + [summary]);
    assert none + [summary] + [DurationEntry(",\n  ", ms)] == EndEntries(noTests, passed, failed, ms);
  }

  method ScopeEndText(indent: nat) returns (out: string)
    ensures out == CloseText("\n" + Indent(indent + 2), [], "\n" + Indent(indent))
  {
    out := "" + ("\n" + Indent(indent + 2)) + "]";
    NoMembers(out);
    out := out + ("\n" + Indent(indent) + "}");
  }

  // ---------------------------------------------------------------- the invariant, on values

  /** The fields of the writer, with the document written so far and what was recorded in it. */
  datatype Core = Core(initialized: bool, phase: Phase, hasTests: bool, flags: seq<bool>, doc: string, tree: Recording)

  /** The invariant: what has been written reads as what has been recorded, and the flags say so. */
  ghost predicate InStep(c: Core, r: Recording) {
    r.Untracked? ||
    (c.initialized && c.phase == PhaseOf(r) && c.flags == FlagsOf(r)
     && (r.Finished? || c.hasTests == HasTestsOf(r))
     && Leads(START, c.doc, Image(r)))
  }

  predicate TreeIs(c: Core, r: Recording) { r == c.tree }

  /** ... folded: the methods of the writer pass it on, and only the lemmas below look inside. */
  ghost predicate Consistent(c: Core) {
    forall r {:trigger TreeIs(c, r)} :: TreeIs(c, r) ==> InStep(c, r)
  }

  lemma {:induction false} ConsistentIff(c: Core)
    ensures Consistent(c) <==> InStep(c, c.tree)
  {
    assert TreeIs(c, c.tree);
  }

  predicate CanRecord(c: Core) {
    c.initialized && c.flags != [] && (c.phase == SuiteEvents || c.phase == InTest)
  }

  /** Nothing is dropped: a document with an open events array can always take events. */
  lemma {:induction false} RecordableIffOpen(c: Core)
    requires Consistent(c)
    ensures HasLevels(c.tree) ==> CanRecord(c)
    ensures CanRecord(c) && c.tree != Untracked ==> HasLevels(c.tree)
  {
    ConsistentIff(c);
  }

  lemma {:induction false} NothingToRecord(c: Core, v: Value, head: seq<Member>)
    requires Consistent(c) && !CanRecord(c)
    ensures Item(c.tree, v) == c.tree == Deeper(c.tree, head)
  {
    RecordableIffOpen(c);
  }

  lemma {:induction false} NoTestToStart(c: Core, head: seq<Member>)
    requires Consistent(c) && (!c.initialized || (c.phase != SuiteEvents && c.phase != Tests))
    ensures StartTest(c.tree, head) == c.tree
  {
    ConsistentIff(c);
  }

  lemma {:induction false} SuiteIsConsistent(text: string, head: seq<Member>)
    requires Opens(text, head)
    ensures Consistent(Core(true, SuiteEvents, false, [false], text, SuiteOpen([Open(head, [])])))
  {
    ConsistentIff(Core(true, SuiteEvents, false, [false], text, SuiteOpen([Open(head, [])])));
    SuiteStarted(text, head);
    assert Flags([Open(head, [])]) == [false];
  }

  /** Only the levels of c's recording have changed. */
  lemma {:induction false} LevelsMoved(c: Core, d: Core, flags: seq<bool>, doc: string, r: Recording)
    requires Consistent(c) && HasLevels(c.tree) && d == c.(flags := flags, doc := doc, tree := r)
    requires HasLevels(r) && r == WithLevels(c.tree, r.levels)
    requires flags == FlagsOf(r) && Leads(START, doc, Image(r))
    ensures Consistent(d)
  {
    ConsistentIff(c);
    ConsistentIff(d);
  }

  lemma {:induction false} KeepsItem(c: Core, d: Core, indent: nat, text: string, v: Value, written: string)
    requires Consistent(c) && CanRecord(c) && Exactly(text, v)
    requires written == ItemSeparator(c.flags[|c.flags| - 1], indent) + text
    requires d == c.(flags := c.flags[|c.flags| - 1 := true], doc := c.doc + written, tree := Item(c.tree, v))
    ensures Consistent(d)
  {
    if c.tree == Untracked {
      ConsistentIff(d);
    } else {
      RecordableIffOpen(c);
      TopFlag(c);
      ItemRecorded(c.doc, c.tree, indent, text, v);
      LevelsMoved(c, d, d.flags, d.doc, d.tree);
    }
  }

  /** The top flag says whether the innermost array has an item. */
  lemma {:induction false} TopFlag(c: Core)
    requires Consistent(c) && HasLevels(c.tree)
    ensures Leads(START, c.doc, Image(c.tree))
    ensures c.flags == FlagsOf(c.tree) && |c.flags| == |c.tree.levels|
    ensures c.flags[|c.flags| - 1] == (Last(c.tree.levels).items != [])
  {
    ConsistentIff(c);
  }

  lemma {:induction false} KeepsScope(c: Core, d: Core, indent: nat, text: string, head: seq<Member>, written: string)
    requires Consistent(c) && CanRecord(c) && Opens(text, head)
    requires written == ItemSeparator(c.flags[|c.flags| - 1], indent) + text
    requires d == c.(flags := c.flags[|c.flags| - 1 := true] + [false], doc := c.doc + written,
                     tree := Deeper(c.tree, head))
    ensures Consistent(d)
  {
    if c.tree == Untracked {
      ConsistentIff(d);
    } else {
      RecordableIffOpen(c);
      TopFlag(c);
      ScopeRecorded(c.doc, c.tree, indent, text, head);
      LevelsMoved(c, d, d.flags, d.doc, d.tree);
    }
  }

  /** What BeginTest appends: leaving the suite's events, if it was still there, then the new test. */
  function TestStartText(phase: Phase, hasTests: bool, text: string): string {
    (if phase == SuiteEvents then TestsStart() else "") + (ItemSeparator(hasTests, 4) + text)
  }

  method WriteTestStart(phase: Phase, hasTests: bool, text: string) returns (out: string)
    ensures out == TestStartText(phase, hasTests, text)
  {
    out := "";
    if phase == SuiteEvents {
      out := "" + ("\n" + Indent(2)) + "]" + (",\n  " + Key("tests")) + "[";
    }
    out := out + ((if hasTests then ",\n" else "\n") + Indent(4) + text);
  }

  lemma {:induction false} KeepsTestStart(c: Core, d: Core, text: string, head: seq<Member>, written: string)
    requires Consistent(c) && c.initialized && (c.phase == SuiteEvents || c.phase == Tests) && Opens(text, head)
    requires written == TestStartText(c.phase, c.hasTests, text)
    requires d == c.(phase := InTest, hasTests := true, flags := [false], doc := c.doc + written,
                     tree := StartTest(c.tree, head))
    ensures Consistent(d)
  {
    ConsistentIff(c);
    ConsistentIff(d);
    if c.tree != Untracked {
      var piece := ItemSeparator(c.hasTests, 4) + text;
      if c.tree.SuiteOpen? {
        var ls := c.tree.levels;
        TestsStarted([], ls);
        assert [] + Frames(Init(ls)) == Frames(Init(ls));
        var r := TestsOpen(Frames(Init(ls)), Closed(Last(ls)), []);
        TestStarted(r.below, r.head, [], text, head);
        LeadsOn(START, c.doc, Image(c.tree), TestsStart(), Image(r));
        LeadsOn(START, c.doc + TestsStart(), Image(r), piece, Image(StartTest(c.tree, head)));
        Assoc(c.doc, TestsStart(), piece);
      } else {
        TestStarted(c.tree.below, c.tree.head, c.tree.tests, text, head);
        LeadsOn(START, c.doc, Image(c.tree), piece, Image(StartTest(c.tree, head)));
        assert "" + piece == piece;
      }
      assert Flags([Open(head, [])]) == [false];
    }
  }

  /** All scopes of the current test closed. */
  function AllClosed(r: Recording): Recording {
    if r.TestOpen? then r.(levels := [CloseAll(r.levels)]) else r
  }

  /** Closing one scope of a test after another closes them all. */
  lemma {:induction false} ScopesClose(c: Core)
    requires Consistent(c) && c.phase == InTest
    ensures AllClosed(Shallower(c.tree)) == AllClosed(c.tree)
    ensures |c.flags| <= 1 ==> AllClosed(c.tree) == c.tree
  {
    ConsistentIff(c);
    if c.tree.TestOpen? { assert |Flags(c.tree.levels)| == |c.tree.levels|; }
  }

  lemma {:induction false} FinishTestNeedsTest(c: Core, passed: bool, ms: nat)
    requires Consistent(c) && c.phase != InTest
    ensures FinishTest(c.tree, passed, ms) == c.tree
  {
    ConsistentIff(c);
  }

  /** Text appended when there is a file. */
  function Appended(c: Core, text: string): string { if c.initialized then c.doc + text else c.doc }

  lemma {:induction false} KeepsTestEnd(c: Core, d: Core, text: string, passed: bool, ms: nat)
    requires Consistent(c) && c.phase == InTest && |c.flags| <= 1 && EndsTest(text, passed, ms)
    requires d == c.(phase := Tests, flags := [], doc := Appended(c, text), tree := FinishTest(c.tree, passed, ms))
    ensures Consistent(d)
  {
    ConsistentIff(c);
    ConsistentIff(d);
    if c.tree != Untracked {
      assert |Flags(c.tree.levels)| == |c.tree.levels| == 1;
      LeadsOn(START, c.doc, Image(c.tree), text, Image(FinishTest(c.tree, passed, ms)));
    }
  }

  lemma {:induction false} KeepsSuiteEnd(c: Core, d: Core, text: string, passed: nat, failed: nat, ms: nat)
    requires Consistent(c) && c.phase != InTest && EndsSuite(text, c.phase == SuiteEvents, passed, failed, ms)
    requires d == c.(phase := SuiteDone, flags := [], doc := Appended(c, text),
                     tree := FinishSuite(c.tree, passed, failed, ms))
    ensures Consistent(d)
  {
    ConsistentIff(c);
    ConsistentIff(d);
    if c.tree.SuiteOpen? || c.tree.TestsOpen? {
      LeadsOn(START, c.doc, Image(c.tree), text, Image(FinishSuite(c.tree, passed, failed, ms)));
    }
  }

  lemma {:induction false} NoScopeToEnd(c: Core)
    requires Consistent(c) && |c.flags| < 2
    ensures Shallower(c.tree) == c.tree
  {
    ConsistentIff(c);
    assert HasLevels(c.tree) ==> |Flags(c.tree.levels)| == |c.tree.levels|;
  }

  lemma {:induction false} KeepsScopeEnd(c: Core, d: Core, ws: string, ws': string)
    requires Consistent(c) && |c.flags| >= 2 && AllWs(ws) && AllWs(ws')
    requires d == c.(flags := c.flags[..|c.flags| - 1], doc := Appended(c, CloseText(ws, [], ws')),
                     tree := Shallower(c.tree))
    ensures Consistent(d)
  {
    ConsistentIff(c);
    ConsistentIff(d);
    if c.tree != Untracked {
      ScopeEndRecorded(c.doc, c.tree, ws, ws');
    }
  }

  // ---------------------------------------------------------------- the writer

  class Log {
    const urlBase: Option<ByteStr>
    var initialized: bool
    var phase: Phase
    var hasTests: bool
    var arrayHasItem: seq<bool>
    var suiteStartMs: U32
    var testStartMs: U32
    var file: string

    /** The file is what it held before the last BeginSuite, then the document written since. */
    ghost var earlier: string
    ghost var doc: string
    /** What has been recorded in that document. */
    ghost var tree: Recording

    constructor (urlBase: Option<ByteStr>)
      ensures Valid() && !initialized && tree == Untracked && this.urlBase == urlBase
    {
      this.urlBase := urlBase;
      initialized, phase, hasTests, arrayHasItem := false, NoSuite, false, [];
      suiteStartMs, testStartMs, file := 0, 0, "";
      earlier, doc, tree := "", "", Untracked;
    }

    ghost function Now(): Core
      reads this
    {
      Core(initialized, phase, hasTests, arrayHasItem, doc, tree)
    }

    ghost predicate Valid()
      reads this
    {
      file == earlier + doc && Consistent(Now())
    }

    method AppendToFile(text: string)
      requires file == earlier + doc
      modifies this`file, this`doc
      ensures file == earlier + doc
      ensures file == if initialized then old(file) + text else old(file)
      ensures doc == if initialized then old(doc) + text else old(doc)
    {
      if !initialized {
        return;
      }
      Assoc(earlier, doc, text);
      file := file + text;
      doc := doc + text;
    }

    predicate CanRecordEvent()
      reads this
    {
      initialized && arrayHasItem != [] && (phase == SuiteEvents || phase == InTest)
    }

    function EventIndent(): nat
      reads this
    {
      (if phase == InTest then 8 else 4) + 4 * (if arrayHasItem == [] then 0 else |arrayHasItem| - 1)
    }

    function ElapsedMs(tick: U32): U32
      reads this`suiteStartMs
    {
      Since(tick, suiteStartMs)
    }

    method BeginEventItem() returns (out: string)
      requires arrayHasItem != []
      modifies this`arrayHasItem
      ensures arrayHasItem == old(arrayHasItem)[|old(arrayHasItem)| - 1 := true]
      ensures out == ItemSeparator(old(arrayHasItem)[|old(arrayHasItem)| - 1], old(EventIndent()))
    {
      var hasItem := arrayHasItem[|arrayHasItem| - 1];
      out := if hasItem then ",\n" else "\n";
      arrayHasItem := arrayHasItem[|arrayHasItem| - 1 := true];
      out := out + Indent(EventIndent());
    }

    /** Appends the text of an item of the innermost array, after the separator that is due. */
    method WriteItem(text: string) returns (ghost written: string)
      requires initialized && arrayHasItem != [] && file == earlier + doc
      modifies this`file, this`doc, this`arrayHasItem
      ensures arrayHasItem == old(arrayHasItem)[|old(arrayHasItem)| - 1 := true]
      ensures written == ItemSeparator(old(arrayHasItem)[|old(arrayHasItem)| - 1], old(EventIndent())) + text
      ensures file == earlier + doc && file == old(file) + written && doc == old(doc) + written
    {
      var out := BeginEventItem();
      out := out + text;
      AppendToFile(out);
      written := out;
    }

    /** Appends one complete item to the innermost array. */
    method AppendItem(text: string, ghost v: Value) returns (ghost written: string)
      requires Valid() && CanRecordEvent() && Exactly(text, v)
      modifies this`file, this`doc, this`arrayHasItem, this`tree
      ensures Valid() && tree == Item(old(tree), v) && file == old(file) + written
    {
      ghost var c, indent := Now(), EventIndent();
      written := WriteItem(text);
      tree := Item(tree, v);
      KeepsItem(c, Now(), indent, text, v, written);
    }

    method Event(level: Level, place: Place, fields: LogFields, formatted: ByteStr, tick: U32)
      returns (ghost written: string)
      requires Valid()
      modifies this`file, this`doc, this`arrayHasItem, this`tree
      ensures Valid() && file == old(file) + written && (written != "" ==> old(CanRecordEvent()))
      ensures tree == Item(old(tree), EventJson(level, Message(formatted), place, Since(tick, suiteStartMs), fields))
    {
      var message := StripTrailingNewlines(formatted);
      written := "";
      if CanRecordEvent() {
        var out := EventText(level, WithoutLeadingSpaces(message), place, ElapsedMs(tick), fields);
        written := AppendItem(out, EventJson(level, Message(formatted), place, ElapsedMs(tick), fields));
      } else {
        NothingToRecord(Now(), EventJson(level, Message(formatted), place, ElapsedMs(tick), fields), []);
      }
    }

    method HexDump(place: Place, title: ByteStr, data: seq<U8>, tick: U32) returns (ghost written: string)
      requires Valid()
      modifies this`file, this`doc, this`arrayHasItem, this`tree
      ensures Valid() && file == old(file) + written && (written != "" ==> old(CanRecordEvent()))
      ensures tree == Item(old(tree), DumpJson(title, data, place, Since(tick, suiteStartMs)))
    {
      written := "";
      if CanRecordEvent() {
        var out := DumpText(title, data, place, ElapsedMs(tick));
        written := AppendItem(out, DumpJson(title, data, place, ElapsedMs(tick)));
      } else {
        NothingToRecord(Now(), DumpJson(title, data, place, ElapsedMs(tick)), []);
      }
    }
  
    method BeginScope(place: Place, name: ByteStr, tick: U32) returns (ghost written: string)
      requires Valid()
      modifies this`file, this`doc, this`arrayHasItem, this`tree
      ensures Valid() && file == old(file) + written && (written != "" ==> old(CanRecordEvent()))
      ensures tree == Deeper(old(tree), ScopeHead(name, place, Since(tick, suiteStartMs)))
    {
      written := "";
      var t := ElapsedMs(tick);
      if CanRecordEvent() {
        var text := ScopeText(EventIndent(), name, place, t);
        written := OpenScope(text, ScopeHead(name, place, t));
      } else {
        NothingToRecord(Now(), Null, ScopeHead(name, place, t));
      }
    }

    method OpenScope(text: string, ghost head: seq<Member>) returns (ghost written: string)
      requires Valid() && CanRecordEvent() && Opens(text, head)
      modifies this`file, this`doc, this`arrayHasItem, this`tree
      ensures Valid() && tree == Deeper(old(tree), head) && file == old(file) + written
    {
      ghost var c, indent := Now(), EventIndent();
      written := WriteItem(text);
      arrayHasItem := arrayHasItem + [false];
      tree := Deeper(tree, head);
      KeepsScope(c, Now(), indent, text, head, written);
    }

    method EndScope() returns (ghost written: string)
      requires Valid()
      modifies this`file, this`doc, this`arrayHasItem, this`tree
      ensures Valid() && file == old(file) + written
      ensures tree == Shallower(old(tree))
      ensures |old(arrayHasItem)| < 2 ==> written == "" && arrayHasItem == old(arrayHasItem)
      ensures |old(arrayHasItem)| >= 2 ==> arrayHasItem == old(arrayHasItem)[..|old(arrayHasItem)| - 1]
    {
      written := "";
      if |arrayHasItem| < 2 {
        NoScopeToEnd(Now());
        return;
      }
      ghost var c := Now();
      arrayHasItem := arrayHasItem[..|arrayHasItem| - 1];
      var indent := EventIndent();
      var out := ScopeEndText(indent);
      AppendToFile(out);
      tree := Shallower(tree);
      KeepsScopeEnd(c, Now(), "\n" + Indent(indent + 2), "\n" + Indent(indent));
      written := if initialized then out else "";
    }

    /** Opens the file, truncating it or not; `canOpen` is the outcome of the open. */
    method Initialize(truncate: bool, canOpen: bool) returns (ok: bool)
      modifies this`initialized, this`file, this`doc, this`earlier, this`tree
      ensures Valid() && tree == Untracked && ok == canOpen == initialized
      ensures file == if canOpen && truncate then "" else old(file)
    {
      if canOpen && truncate {
        file := "";
      }
      earlier, doc, tree := file, "", Untracked;
      initialized := canOpen;
      ok := canOpen;
    }

    method BeginSuite(name: ByteStr, tick: U32)
      modifies this`suiteStartMs, this`file, this`doc, this`earlier, this`phase, this`hasTests
      modifies this`arrayHasItem, this`tree
      ensures Valid() && initialized == old(initialized) && suiteStartMs == tick && phase == SuiteEvents
      ensures earlier == old(file) && (!initialized ==> file == old(file))
      ensures tree == if initialized then SuiteOpen([Open(SuiteHead(name, urlBase), [])]) else Untracked
    {
      suiteStartMs := tick;
      var out := SuiteText(name, urlBase);
      OpenSuite(out, SuiteHead(name, urlBase));
    }

    method OpenSuite(text: string, ghost head: seq<Member>)
      requires Opens(text, head)
      modifies this`file, this`doc, this`earlier, this`phase, this`hasTests, this`arrayHasItem, this`tree
      ensures Valid() && phase == SuiteEvents && earlier == old(file) && (!initialized ==> file == old(file))
      ensures tree == if initialized then SuiteOpen([Open(head, [])]) else Untracked
    {
      earlier, doc, tree := file, "", if initialized then SuiteOpen([Open(head, [])]) else Untracked;
      phase, hasTests, arrayHasItem := SuiteEvents, false, [false];
      AppendToFile(text);
      assert "" + text == text;
      if initialized {
        SuiteIsConsistent(text, head);
        assert Now() == Core(true, SuiteEvents, false, [false], text, SuiteOpen([Open(head, [])]));
      }
    }

    /** `startTick` and `tick` are the two readings of the clock. */
    method BeginTest(name: ByteStr, source: ByteStr, startTick: U32, tick: U32) returns (ghost written: string)
      requires Valid()
      modifies this`file, this`doc, this`phase, this`hasTests, this`testStartMs, this`arrayHasItem, this`tree
      ensures Valid() && file == old(file) + written
      ensures tree == StartTest(old(tree), TestHead(name, source, Since(tick, suiteStartMs)))
      ensures testStartMs == if old(initialized) && (old(phase) == SuiteEvents || old(phase) == Tests) then startTick
                             else old(testStartMs)
    {
      written := "";
      var started := ElapsedMs(tick);
      if initialized && (phase == SuiteEvents || phase == Tests) {
        var text := TestText(name, source, started);
        written := OpenTest(text, startTick, TestHead(name, source, started));
      } else {
        NoTestToStart(Now(), TestHead(name, source, started));
      }
    }

    method OpenTest(text: string, startTick: U32, ghost head: seq<Member>) returns (ghost written: string)
      requires Valid() && initialized && (phase == SuiteEvents || phase == Tests) && Opens(text, head)
      modifies this`file, this`doc, this`phase, this`hasTests, this`testStartMs, this`arrayHasItem, this`tree
      ensures Valid() && file == old(file) + written && testStartMs == startTick && tree == StartTest(old(tree), head)
    {
      ghost var c := Now();
      var out := WriteTestStart(phase, hasTests, text);
      hasTests := true;
      testStartMs := startTick;
      AppendToFile(out);
      phase, arrayHasItem := InTest, [false];
      tree := StartTest(tree, head);
      KeepsTestStart(c, Now(), text, head, out);
      written := out;
    }

    /** `tick` is read after the open scopes have been closed. */
    method EndTest(passed: bool, tick: U32) returns (ghost written: string)
      requires Valid()
      modifies this`file, this`doc, this`phase, this`arrayHasItem, this`tree
      ensures Valid() && file == old(file) + written
      ensures tree == FinishTest(old(tree), passed, Since(tick, testStartMs))
      ensures phase == if old(phase) == InTest then Tests else old(phase)
    {
      written := "";
      if phase != InTest {
        FinishTestNeedsTest(Now(), passed, Since(tick, testStartMs));
        return;
      }
      written := EndScopes();
      ghost var piece := CloseTest(passed, Since(tick, testStartMs));
      Assoc(old(file), written, piece);
      written := written + piece;
    }

    method CloseTest(passed: bool, ms: U32) returns (ghost written: string)
      requires Valid() && phase == InTest && |arrayHasItem| <= 1
      modifies this`file, this`doc, this`phase, this`arrayHasItem, this`tree
      ensures Valid() && file == old(file) + written && phase == Tests
      ensures tree == FinishTest(old(tree), passed, ms)
    {
      var out := TestEndText(passed, ms);
      ghost var c := Now();
      AppendToFile(out);
      phase, arrayHasItem := Tests, [];
      tree := FinishTest(tree, passed, ms);
      KeepsTestEnd(c, Now(), out, passed, ms);
      written := if initialized then out else "";
    }

    /** The loop of EndTest that closes the scopes still open. */
    method EndScopes() returns (ghost written: string)
      requires Valid() && phase == InTest
      modifies this`file, this`doc, this`arrayHasItem, this`tree
      ensures Valid() && file == old(file) + written && |arrayHasItem| <= 1
      ensures tree == AllClosed(old(tree))
    {
      written := "";
      while |arrayHasItem| > 1
        invariant Valid() && file == old(file) + written
        invariant AllClosed(tree) == AllClosed(old(tree))
        decreases |arrayHasItem|
      {
        ScopesClose(Now());
        ghost var piece := EndScope();
        Assoc(old(file), written, piece);
        written := written + piece;
      }
      ScopesClose(Now());
    }

    method EndSuite(passed: U32, failed: U32, testTick: U32, tick: U32) returns (ghost written: string)
      requires Valid()
      modifies this`file, this`doc, this`phase, this`arrayHasItem, this`tree
      ensures Valid() && file == old(file) + written && phase == SuiteDone
      ensures tree == FinishSuite(FinishTest(old(tree), false, Since(testTick, testStartMs)),
                                  passed, failed, Since(tick, suiteStartMs))
    {
      ghost var first := "";
      if phase == InTest {
        first := EndTest(false, testTick);
      } else {
        FinishTestNeedsTest(Now(), false, Since(testTick, testStartMs));
      }
      ghost var second := CloseSuite(passed, failed, ElapsedMs(tick));
      Assoc(old(file), first, second);
      written := first + second;
    }

    method CloseSuite(passed: U32, failed: U32, ms: U32) returns (ghost written: string)
      requires Valid() && phase != InTest
      modifies this`file, this`doc, this`phase, this`arrayHasItem, this`tree
      ensures Valid() && file == old(file) + written && phase == SuiteDone
      ensures tree == FinishSuite(old(tree), passed, failed, ms)
    {
      var out := SuiteEndText(phase == SuiteEvents, passed, failed, ms);
      ghost var c := Now();
      AppendToFile(out);
      phase, arrayHasItem := SuiteDone, [];
      tree := FinishSuite(tree, passed, failed, ms);
      KeepsSuiteEnd(c, Now(), out, passed, failed, ms);
      written := if initialized then out else "";
    }
  }
}
