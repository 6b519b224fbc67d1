/**
  What a reader learns from a log: members are looked up by name in the parsed values, numbers are
  read as decimals, and times are differences of the two clock readings they were taken from.
 */
module LogMeaning {
  import opened Json
  import opened JsonText
  import opened TestLog

  /** v is an object of n members with different names. */
  ghost predicate IsObject(v: Value, n: nat) {
    v.Obj? && |v.members| == n && forall i, j :: 0 <= i < j < n ==> v.members[i].0 != v.members[j].0
  }

  predicate Named(name: string, key: string) { name == key }

  /** v is an object with the member (key, w); folded, so that proofs look inside only where `HasIff` says so. */
  ghost predicate Has(v: Value, key: string, w: Value) {
    v.Obj? && forall name {:trigger Named(name, key)} :: Named(name, key) ==> (name, w) in v.members
  }

  lemma {:induction false} HasIff(v: Value, key: string, w: Value)
    ensures Has(v, key, w) <==> v.Obj? && (key, w) in v.members
  {
    assert Named(key, key);
  }

  predicate Denotes(token: string, n: int) {
    (forall i :: 0 <= i < |token| ==> IsDigit(token[i]) || (i == 0 && token[0] == '-')) && SignedValue(token) == n
  }

  ghost predicate HasNumber(v: Value, key: string, n: int) {
    exists token :: Has(v, key, Num(token)) && Denotes(token, n)
  }

  /** The member counts the milliseconds from one reading of the 32-bit tick counter to another. */
  ghost predicate HasElapsed(v: Value, key: string, start: U32, tick: U32) {
    exists d: nat :: d < 0x1_0000_0000 && tick == (start + d) % 0x1_0000_0000 && HasNumber(v, key, d)
  }

  function Slash(c: char): char { if c == '\\' then '/' else c }

  /** "/src/" ends before k. */
  predicate SrcEndsAt(path: string, k: int) {
    && 5 <= k <= |path| && Slash(path[k - 5]) == '/' && path[k - 4] == 's' && path[k - 3] == 'r' && path[k - 2] == 'c'
    && Slash(path[k - 1]) == '/'
  }

  /** `file` is what follows the last "/src/" of the path, or all of it, with forward slashes. */
  ghost predicate RelativeTo(file: string, path: string) {
    && |file| <= |path|
    && (forall i :: 0 <= i < |file| ==> file[i] == Slash(path[|path| - |file| + i]))
    && (|file| == |path| || SrcEndsAt(path, |path| - |file|))
    && forall k :: |path| - |file| < k <= |path| ==> !SrcEndsAt(path, k)
  }

  /** `message` is the text without its leading spaces and its trailing line ends. */
  predicate TrimmedAt(message: string, text: string, i: nat, j: nat) {
    && i <= j <= |text| && message == text[i..j]
    && (forall k :: 0 <= k < i ==> text[k] == ' ')
    && (forall k :: j <= k < |text| ==> text[k] == '\n' || text[k] == '\r')
    && (j == 0 || (text[j - 1] != '\n' && text[j - 1] != '\r')) && (i == j || text[i] != ' ')
  }

  ghost predicate Trimmed(message: string, text: string) { exists i: nat, j: nat :: TrimmedAt(message, text, i, j) }

  predicate MeansValue(w: Value, x: LogValue) {
    match x
    case LInt(i) => w.Num? && Denotes(w.token, i)
    case LUint(u) => w.Num? && Denotes(w.token, u)
    case LDouble(token) => w == if token == "null" then Null else Num(token)
    case LBool(b) => w == Bool(b)
    case LString(s) => w == Str(s)
  }

  /** The fields in their order. */
  predicate MeansFields(w: Value, fields: LogFields) {
    w.Obj? && |w.members| == |fields| &&
    forall i :: 0 <= i < |fields| ==> w.members[i].0 == fields[i].0 && MeansValue(w.members[i].1, fields[i].1)
  }

  ghost predicate MeansPlace(v: Value, place: Place, start: U32, tick: U32) {
    && (exists file :: Has(v, "file", Str(file)) && RelativeTo(file, place.file))
    && HasNumber(v, "line", place.line) && HasElapsed(v, "t_ms", start, tick)
  }

  /** An event logged at `tick` in a suite begun at `start`. */
  ghost predicate MeansEvent(v: Value, level: Level, place: Place, fields: LogFields, formatted: ByteStr, start: U32,
                             tick: U32)
  {
    && IsObject(v, if fields == [] then 5 else 6)
    && Has(v, "level", Str(match level
                           case Pass => "pass"
                           case Fail => "fail"
                           case Info => "info"
                           case ErrorLevel => "error"))
    && (exists message :: Has(v, "message", Str(message)) && Trimmed(message, formatted))
    && MeansPlace(v, place, start, tick)
    && (fields != [] ==> exists w :: Has(v, "fields", w) && MeansFields(w, fields))
  }

  predicate MeansBytes(text: string, data: seq<U8>) {
    |HexDecode(text)| == |data| && forall i :: 0 <= i < |data| ==> HexDecode(text)[i] == data[i]
  }

  ghost predicate MeansDump(v: Value, place: Place, title: ByteStr, data: seq<U8>, start: U32, tick: U32) {
    && IsObject(v, 7) && Has(v, "level", Str("dump")) && Has(v, "label", Str(title))
    && HasNumber(v, "size", |data|)
    && (exists text :: Has(v, "bytes", Str(text)) && MeansBytes(text, data))
    && MeansPlace(v, place, start, tick)
  }

  ghost predicate MeansScope(v: Value, place: Place, name: ByteStr, start: U32, tick: U32, items: seq<Value>) {
    && IsObject(v, 5) && Has(v, "scope", Str(name)) && MeansPlace(v, place, start, tick)
    && Has(v, "events", Arr(items))
  }

  /** A test begun at `tick`, timed from `startTick` to `endTick`. */
  ghost predicate MeansTest(v: Value, name: ByteStr, source: ByteStr, start: U32, tick: U32, startTick: U32,
                            items: seq<Value>, passed: bool, endTick: U32)
  {
    && IsObject(v, 6) && Has(v, "name", Str(name))
    && (exists file :: Has(v, "source", Str(file)) && RelativeTo(file, source))
    && HasElapsed(v, "started_ms", start, tick)
    && Has(v, "events", Arr(items))
    && Has(v, "result", Str(if passed then "pass" else "fail"))
    && HasElapsed(v, "duration_ms", startTick, endTick)
  }

  /** `%u` of a 32-bit sum. */
  ghost predicate MeansSummary(v: Value, passed: U32, failed: U32) {
    && IsObject(v, 3) && HasNumber(v, "total", (passed + failed) % 0x1_0000_0000)
    && HasNumber(v, "passed", passed) && HasNumber(v, "failed", failed)
  }

  /** What follows the members that BeginSuite wrote. */
  ghost predicate MeansOutcome(v: Value, events: seq<Value>, tests: seq<Value>, passed: U32, failed: U32, start: U32,
                               endTick: U32)
  {
    && Has(v, "events", Arr(events)) && Has(v, "tests", Arr(tests))
    && (exists w :: Has(v, "summary", w) && MeansSummary(w, passed, failed))
    && HasElapsed(v, "duration_ms", start, endTick)
  }

  /** A whole document. */
  ghost predicate MeansSuite(v: Value, name: ByteStr, urlBase: Option<ByteStr>, events: seq<Value>,
                             tests: seq<Value>, passed: U32, failed: U32, start: U32, endTick: U32)
  {
    && IsObject(v, if urlBase.Some? then 7 else 6) && HasNumber(v, "schema_version", 1)
    && (urlBase.Some? ==> Has(v, "location_url_base", Str(urlBase.value)))
    && Has(v, "suite", Str(name))
    && MeansOutcome(v, events, tests, passed, failed, start, endTick)
  }

  // ---------------------------------------------------------------- numbers, times, paths and messages

  lemma {:induction false} HasInteger(v: Value, key: string, n: int)
    requires Has(v, key, Num(SignedDecimal(n)))
    ensures HasNumber(v, key, n)
  {
    SignedDecimalRoundTrip(n);
    assert Denotes(SignedDecimal(n), n);
  }

  lemma {:induction false} HasNatural(v: Value, key: string, n: nat)
    requires Has(v, key, UintJson(n))
    ensures HasNumber(v, key, n)
  {
    HasInteger(v, key, n);
  }

  lemma {:induction false} HasTime(v: Value, key: string, start: U32, tick: U32)
    requires Has(v, key, UintJson(Since(tick, start)))
    ensures HasElapsed(v, key, start, tick)
  {
    ElapsedSince(tick, start);
    HasNatural(v, key, Since(tick, start));
  }

  lemma {:induction false} PathIsRelative(path: ByteStr)
    ensures RelativeTo(NormalizedPath(path), path)
  {
    var s, r := SlashesForward(path), NormalizedPath(path);
    NormalizedPathIsRelative(path, r);
    forall i | 0 <= i < |r| ensures r[i] == Slash(path[|path| - |r| + i]) {
      assert r[i] == s[|s| - |r| + i];
    }
    forall k: int | 5 <= k <= |path| ensures SrcEndsAt(path, k) <==> SrcAt(s, k - 5) {
      assert k - 5 + 4 == k - 1;
    }
    forall k | |path| - |r| < k <= |path| ensures !SrcEndsAt(path, k) {
      if 5 <= k { assert !SrcAt(s, k - 5); }
    }
  }

  lemma {:induction false} LeadingSpacesDropped(s: ByteStr)
    ensures var r := WithoutLeadingSpaces(s);
            |r| <= |s| && r == s[|s| - |r|..] && (forall k :: 0 <= k < |s| - |r| ==> s[k] == ' ') &&
            (r == [] || r[0] != ' ')
  {
    if s != [] && s[0] == ' ' {
      LeadingSpacesDropped(s[1..]);
      var r := WithoutLeadingSpaces(s);
      assert forall k :: 1 <= k < |s| - |r| ==> s[k] == s[1..][k - 1];
    }
  }

  lemma {:induction false} MessageTrimmed(formatted: ByteStr)
    ensures Trimmed(Message(formatted), formatted)
  {
    var s := WithoutTrailingNewlines(formatted);
    var r := WithoutLeadingSpaces(s);
    StrippedIsUnique(formatted, s);
    LeadingSpacesDropped(s);
    assert s == formatted[..|s|];
    assert TrimmedAt(r, formatted, |s| - |r|, |s|);
  }

  lemma {:induction false} ValueMeans(x: LogValue)
    ensures MeansValue(ValueJson(x), x)
  {
    match x
    case LInt(i) => SignedDecimalRoundTrip(i);
    case LUint(u) => SignedDecimalRoundTrip(u);
    case _ =>
  }

  lemma {:induction false} FieldsMean(fields: LogFields)
    ensures MeansFields(FieldsJson(fields), fields)
  {
    forall i | 0 <= i < |fields| ensures MeansValue(ValueJson(fields[i].1), fields[i].1) { ValueMeans(fields[i].1); }
  }

  // ---------------------------------------------------------------- the objects that are written

  lemma {:induction false} HasIn(v: Value, i: nat, key: string, w: Value)
    requires v.Obj? && i < |v.members| && v.members[i] == (key, w)
    ensures Has(v, key, w)
  {
    HasIff(v, key, w);
  }

  /** A name has one value. */
  lemma {:induction false} OneMember(v: Value, n: nat, key: string, w: Value, u: Value)
    requires IsObject(v, n) && Has(v, key, w) && Has(v, key, u)
    ensures w == u
  {
    HasIff(v, key, w);
    HasIff(v, key, u);
    var i :| 0 <= i < |v.members| && v.members[i] == (key, w);
    var j :| 0 <= j < |v.members| && v.members[j] == (key, u);
  }

  lemma {:induction false} PlaceMeans(v: Value, i: nat, place: Place, start: U32, tick: U32)
    requires v.Obj? && i + 3 <= |v.members|
    requires v.members[i..i + 3] == PlaceMembers(place, Since(tick, start))
    ensures MeansPlace(v, place, start, tick)
  {
    var ms := PlaceMembers(place, Since(tick, start));
    assert v.members[i] == ms[0] && v.members[i + 1] == ms[1] && v.members[i + 2] == ms[2];
    PathIsRelative(place.file);
    HasIn(v, i, "file", Str(NormalizedPath(place.file)));
    HasInteger(v, "line", place.line);
    HasTime(v, "t_ms", start, tick);
  }

  lemma {:induction false} PlaceNamesDiffer()
    ensures "file" != "line" && "file" != "t_ms" && "line" != "t_ms"
  {
    assert "file"[0] == 'f' && "line"[0] == 'l' && "t_ms"[0] == 't';
  }

  lemma {:induction false} EventNames(ms: seq<Member>)
    requires |ms| == 5 || (|ms| == 6 && ms[5].0 == "fields")
    requires ms[0].0 == "level" && ms[1].0 == "message" && ms[2].0 == "file" && ms[3].0 == "line" && ms[4].0 == "t_ms"
    ensures IsObject(Obj(ms), |ms|)
  {
    PlaceNamesDiffer();
  }

  lemma {:induction false} EventMeans(level: Level, place: Place, fields: LogFields, formatted: ByteStr, start: U32,
      tick: U32)
    ensures MeansEvent(EventJson(level, Message(formatted), place, Since(tick, start), fields),
                       level, place, fields, formatted, start, tick)
  {
    var v := EventJson(level, Message(formatted), place, Since(tick, start), fields);
    var ms := v.members;
    assert ms[2..5] == PlaceMembers(place, Since(tick, start));
    EventNames(ms);
    HasIn(v, 0, "level", Str(LevelName(level)));
    HasIn(v, 1, "message", Str(Message(formatted)));
    MessageTrimmed(formatted);
    PlaceMeans(v, 2, place, start, tick);
    if fields != [] {
      HasIn(v, 5, "fields", FieldsJson(fields));
      FieldsMean(fields);
    }
  }

  lemma {:induction false} DumpNames(ms: seq<Member>)
    requires |ms| == 7 && ms[0].0 == "level" && ms[1].0 == "label" && ms[2].0 == "size" && ms[3].0 == "bytes"
    requires ms[4].0 == "file" && ms[5].0 == "line" && ms[6].0 == "t_ms"
    ensures IsObject(Obj(ms), 7)
  {
    PlaceNamesDiffer();
    assert "level"[1] == 'e' && "label"[1] == 'a' && "bytes"[1] == 'y' && "size"[0] == 's';
  }

  lemma {:induction false} DumpMeans(place: Place, title: ByteStr, data: seq<U8>, start: U32, tick: U32)
    ensures MeansDump(DumpJson(title, data, place, Since(tick, start)), place, title, data, start, tick)
  {
    var v := DumpJson(title, data, place, Since(tick, start));
    assert v.members[4..7] == PlaceMembers(place, Since(tick, start));
    DumpNames(v.members);
    HasIn(v, 0, "level", Str("dump"));
    HasIn(v, 1, "label", Str(title));
    HasIn(v, 2, "size", UintJson(|data|));
    HasNatural(v, "size", |data|);
    HasIn(v, 3, "bytes", Str(HexBytes(data)));
    HexRoundTrip(data);
    PlaceMeans(v, 4, place, start, tick);
  }

  lemma {:induction false} ScopeNames(ms: seq<Member>)
    requires |ms| == 5 && ms[0].0 == "scope" && ms[1].0 == "file" && ms[2].0 == "line" && ms[3].0 == "t_ms"
    requires ms[4].0 == "events"
    ensures IsObject(Obj(ms), 5)
  {
    PlaceNamesDiffer();
  }

  lemma {:induction false} ScopeMeans(place: Place, name: ByteStr, start: U32, tick: U32, items: seq<Value>)
    ensures MeansScope(Obj(ScopeHead(name, place, Since(tick, start)) + [("events", Arr(items))]),
                       place, name, start, tick, items)
  {
    var v := Obj(ScopeHead(name, place, Since(tick, start)) + [("events", Arr(items))]);
    assert v.members[1..4] == PlaceMembers(place, Since(tick, start));
    ScopeNames(v.members);
    HasIn(v, 0, "scope", Str(name));
    PlaceMeans(v, 1, place, start, tick);
    HasIn(v, 4, "events", Arr(items));
  }

  lemma {:induction false} TestNames(ms: seq<Member>)
    requires |ms| == 6 && ms[0].0 == "name" && ms[1].0 == "source" && ms[2].0 == "started_ms" && ms[3].0 == "events"
    requires ms[4].0 == "result" && ms[5].0 == "duration_ms"
    ensures IsObject(Obj(ms), 6)
  {
    assert "source"[0] == 's' && "events"[0] == 'e' && "result"[0] == 'r';
  }

  lemma {:induction false} TestMeans(v: Value, name: ByteStr, source: ByteStr, start: U32, tick: U32, startTick: U32,
      items: seq<Value>, passed: bool, endTick: U32)
    requires v == Obj(Closed(Open(TestHead(name, source, Since(tick, start)), items))
                      + ResultMembers(passed, Since(endTick, startTick)))
    ensures MeansTest(v, name, source, start, tick, startTick, items, passed, endTick)
  {
    TestNames(v.members);
    HasIn(v, 0, "name", Str(name));
    HasIn(v, 1, "source", Str(NormalizedPath(source)));
    PathIsRelative(source);
    HasIn(v, 2, "started_ms", UintJson(Since(tick, start)));
    HasTime(v, "started_ms", start, tick);
    HasIn(v, 3, "events", Arr(items));
    HasIn(v, 4, "result", Str(if passed then "pass" else "fail"));
    HasIn(v, 5, "duration_ms", UintJson(Since(endTick, startTick)));
    HasTime(v, "duration_ms", startTick, endTick);
  }

  lemma {:induction false} SummaryMeans(v: Value, passed: U32, failed: U32)
    requires v == Obj([("total", UintJson((passed + failed) % 0x1_0000_0000)),
                       ("passed", UintJson(passed)), ("failed", UintJson(failed))])
    ensures MeansSummary(v, passed, failed)
  {
    var ms := v.members;
    assert "passed"[0] == 'p' && "failed"[0] == 'f';
    assert ms[0].0 == "total" && ms[1].0 == "passed" && ms[2].0 == "failed";
    HasIn(v, 0, "total", UintJson((passed + failed) % 0x1_0000_0000));
    HasNatural(v, "total", (passed + failed) % 0x1_0000_0000);
    HasIn(v, 1, "passed", UintJson(passed));
    HasNatural(v, "passed", passed);
    HasIn(v, 2, "failed", UintJson(failed));
    HasNatural(v, "failed", failed);
  }

  /** `n` members come first. */
  lemma {:induction false} OutcomeMeans(v: Value, n: nat, events: seq<Value>, tests: seq<Value>, passed: U32,
      failed: U32, start: U32, endTick: U32)
    requires v.Obj? && |v.members| == n + 4
    requires v.members[n..] == [("events", Arr(events)), ("tests", Arr(tests))]
                               + SummaryMembers(passed, failed, Since(endTick, start))
    ensures MeansOutcome(v, events, tests, passed, failed, start, endTick)
  {
    var last := v.members[n..];
    assert last[0] == v.members[n] && last[1] == v.members[n + 1] && last[2] == v.members[n + 2];
    assert last[3] == v.members[n + 3];
    HasIn(v, n, "events", Arr(events));
    HasIn(v, n + 1, "tests", Arr(tests));
    HasIn(v, n + 2, "summary", last[2].1);
    SummaryMeans(last[2].1, passed, failed);
    HasIn(v, n + 3, "duration_ms", UintJson(Since(endTick, start)));
    HasTime(v, "duration_ms", start, endTick);
  }

  lemma {:induction false} OutcomeNames(ms: seq<Member>)
    requires |ms| == 4
    requires ms[0].0 == "events" && ms[1].0 == "tests" && ms[2].0 == "summary" && ms[3].0 == "duration_ms"
    ensures IsObject(Obj(ms), 4)
  {
  }

  lemma {:induction false} SuiteNames(ms: seq<Member>)
    requires |ms| == 7 && ms[0].0 == "schema_version" && ms[1].0 == "location_url_base" && ms[2].0 == "suite"
    requires ms[3].0 == "events" && ms[4].0 == "tests" && ms[5].0 == "summary" && ms[6].0 == "duration_ms"
    ensures IsObject(Obj(ms), 7)
  {
    assert "suite"[0] == 's' && "tests"[0] == 't';
  }

  lemma {:induction false} SuiteNamesWithoutUrl(ms: seq<Member>)
    requires |ms| == 6 && ms[0].0 == "schema_version" && ms[1].0 == "suite"
    requires ms[2].0 == "events" && ms[3].0 == "tests" && ms[4].0 == "summary" && ms[5].0 == "duration_ms"
    ensures IsObject(Obj(ms), 6)
  {
    assert "suite"[0] == 's' && "tests"[0] == 't';
  }

  lemma {:induction false} SuiteHeadMeans(v: Value, name: ByteStr, urlBase: Option<ByteStr>)
    requires v.Obj? && SuiteHead(name, urlBase) <= v.members
    ensures HasNumber(v, "schema_version", 1) && Has(v, "suite", Str(name))
    ensures urlBase.Some? ==> Has(v, "location_url_base", Str(urlBase.value))
  {
    var head := SuiteHead(name, urlBase);
    assert forall i :: 0 <= i < |head| ==> v.members[i] == head[i];
    HasIn(v, 0, "schema_version", Num("1"));
    OneDenotesOne();
    HasIn(v, |head| - 1, "suite", Str(name));
    if urlBase.Some? { HasIn(v, 1, "location_url_base", Str(urlBase.value)); }
  }

  lemma {:induction false} SuiteIsObject(v: Value, name: ByteStr, urlBase: Option<ByteStr>, last: seq<Member>)
    requires v == Obj(SuiteHead(name, urlBase) + last) && |last| == 4
    requires last[0].0 == "events" && last[1].0 == "tests" && last[2].0 == "summary" && last[3].0 == "duration_ms"
    ensures IsObject(v, if urlBase.Some? then 7 else 6)
  {
    if urlBase.Some? { SuiteNames(v.members); } else { SuiteNamesWithoutUrl(v.members); }
  }

  lemma {:induction false} SuiteMeans(v: Value, name: ByteStr, urlBase: Option<ByteStr>, events: seq<Value>,
      tests: seq<Value>, passed: U32, failed: U32, start: U32, endTick: U32)
    requires v == Obj(SuiteHead(name, urlBase) + ([("events", Arr(events)), ("tests", Arr(tests))]
                                                  + SummaryMembers(passed, failed, Since(endTick, start))))
    ensures MeansSuite(v, name, urlBase, events, tests, passed, failed, start, endTick)
  {
    var head := SuiteHead(name, urlBase);
    var last := [("events", Arr(events)), ("tests", Arr(tests))]
                + SummaryMembers(passed, failed, Since(endTick, start));
    assert v.members[|head|..] == last;
    OutcomeMeans(v, |head|, events, tests, passed, failed, start, endTick);
    SuiteHeadMeans(v, name, urlBase);
    SuiteIsObject(v, name, urlBase, last);
  }

  lemma {:induction false} OneDenotesOne()
    ensures Denotes("1", 1)
  {
    SignedDecimalRoundTrip(1);
    assert SignedDecimal(1) == "1";
  }
}
