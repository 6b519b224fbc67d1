/**
  The text emitters of src/test_log.cpp: string escaping, integers, and the key/value objects of
  LogFields, each with the value that the parser of module Json reads back from it.
 */
module JsonText {
  import opened Json

  /** A C++ `unsigned char`.  A byte string is compared with the code points it decodes to. */
  type Byte = c: char | c as int < 256
  type ByteStr = seq<Byte>

  // ---------------------------------------------------------------- strings

  function LowerHex(d: nat): char
    requires d < 16
  {
    if d < 10 then ('0' as int + d) as char else ('a' as int + d - 10) as char
  }

  function EscapeByte(c: Byte): string {
    if c == '\"' then "\\\""
    else if c == '\\' then "\\\\"
    else if c == '\n' then "\\n"
    else if c == '\r' then "\\r"
    else if c == '\t' then "\\t"
    else if c as int < 0x20 || c as int > 0x7E then "\\u00" + [LowerHex(c as int / 16), LowerHex(c as int % 16)]
    else [c]
  }

  function EscapeAll(s: ByteStr): string {
    if s == [] then "" else EscapeAll(s[..|s| - 1]) + EscapeByte(s[|s| - 1])
  }

  function JsonString(s: ByteStr): string { "\"" + EscapeAll(s) + "\"" }

  lemma {:induction false} Assoc(a: string, b: string, c: string)
    ensures a + b + c == a + (b + c)
  {
  }

  method AppendJsonString(out: string, value: ByteStr) returns (result: string)
    ensures result == out + JsonString(value)
  {
    result := out + "\"";
    for i := 0 to |value|
      invariant result == out + ("\"" + EscapeAll(value[..i]))
    {
      ghost var done := "\"" + EscapeAll(value[..i]);
      var c := value[i];
      var piece: string;
      if c == '\"' {
        piece := "\\\"";
      } else if c == '\\' {
        piece := "\\\\";
      } else if c == '\n' {
        piece := "\\n";
      } else if c == '\r' {
        piece := "\\r";
      } else if c == '\t' {
        piece := "\\t";
      } else if c as int < 0x20 || c as int > 0x7E {
        piece := "\\u00" + [LowerHex(c as int / 16), LowerHex(c as int % 16)];
      } else {
        piece := [c];
      }
      result := result + piece;
      assert value[..i + 1][..i] == value[..i];
      Assoc(out, done, piece);
      Assoc("\"", EscapeAll(value[..i]), piece);
    }
    assert value[..|value|] == value;
    Assoc(out, "\"" + EscapeAll(value), "\"");
    result := result + "\"";
  }

  lemma {:induction false} EscapeOne(c: Byte, s: ByteStr)
    requires s == [c]
    ensures EscapeAll(s) == EscapeByte(c)
  {
    assert s[..0] == [];
  }

  /** The escapes, spelt out: newline, carriage return, tab, quote (34), backslash (92) and a control character. */
  lemma {:induction false} EscapesSpelt()
    ensures EscapeAll([10 as char]) == [92 as char, 'n'] && EscapeAll([13 as char]) == [92 as char, 'r']
    ensures EscapeAll([9 as char]) == [92 as char, 't'] && EscapeAll([34 as char]) == [92 as char, 34 as char]
    ensures EscapeAll([92 as char]) == [92 as char, 92 as char]
    ensures EscapeAll([0x1F as char]) == [92 as char, 'u', '0', '0', '1', 'f']
  {
    EscapeOne(10 as char, [10 as char]);
    EscapeOne(13 as char, [13 as char]);
    EscapeOne(9 as char, [9 as char]);
    EscapeOne(34 as char, [34 as char]);
    EscapeOne(92 as char, [92 as char]);
    EscapeOne(0x1F as char, [0x1F as char]);
  }

  predicate InText(p: Parser, isKey: bool, acc: string) { p.mode == Text(isKey, acc, Plain) }

  lemma {:induction false} FeedPrefix(p: Parser, t: string, k: nat)
    requires k <= |t|
    ensures k == 0 ==> Feed(p, t[..k]) == p
    ensures k > 0 ==> Feed(p, t[..k]) == Step(Feed(p, t[..k - 1]), t[k - 1])
  {
    if k > 0 {
      assert t[..k] == t[..k - 1] + [t[k - 1]];
      FeedAppend(p, t[..k - 1], [t[k - 1]]);
      FeedChar(Feed(p, t[..k - 1]), t[k - 1]);
    }
  }

  lemma {:induction false} FeedHexStart(p: Parser, isKey: bool, acc: string, t: string)
    requires InText(p, isKey, acc) && |t| == 6 && t[0] == '\\' && t[1] == 'u' && t[2] == '0' && t[3] == '0'
    ensures Feed(p, t[..4]) == Parser(Text(isKey, acc, Hex(0, 2, 0)), p.stack)
    ensures forall k :: 0 <= k <= 4 ==> Feed(p, t[..k]).mode.Text?
  {
    var st := p.stack;
    FeedPrefix(p, t, 0);
    FeedPrefix(p, t, 1);
    assert Feed(p, t[..1]) == Parser(Text(isKey, acc, Backslash), st);
    FeedPrefix(p, t, 2);
    assert Feed(p, t[..2]) == Parser(Text(isKey, acc, Hex(0, 0, 0)), st);
    FeedPrefix(p, t, 3);
    assert Feed(p, t[..3]) == Parser(Text(isKey, acc, Hex(0, 1, 0)), st);
    FeedPrefix(p, t, 4);
  }

  /** Reading `\u00XY`. */
  lemma {:induction false} FeedHexEscape(p: Parser, isKey: bool, acc: string, t: string, code: nat)
    requires InText(p, isKey, acc) && code < 256
    requires t == "\\u00" + [LowerHex(code / 16), LowerHex(code % 16)]
    ensures Feed(p, t) == Parser(Text(isKey, acc + [code as char], Plain), p.stack)
    ensures forall k :: 0 <= k <= 6 ==> Feed(p, t[..k]).mode.Text?
  {
    var st := p.stack;
    FeedHexStart(p, isKey, acc, t);
    FeedPrefix(p, t, 5);
    assert HexDigit(t[4]) == code / 16;
    assert Feed(p, t[..5]) == Parser(Text(isKey, acc, Hex(0, 3, code / 16)), st);
    FeedPrefix(p, t, 6);
    assert HexDigit(t[5]) == code % 16;
    assert t[..6] == t;
  }

  /** While a byte's escape is being read the string stays open, and then holds that byte. */
  lemma {:induction false} FeedEscape(p: Parser, isKey: bool, acc: string, c: Byte)
    requires InText(p, isKey, acc)
    ensures Feed(p, EscapeByte(c)) == Parser(Text(isKey, acc + [c], Plain), p.stack)
    ensures forall k :: 0 <= k <= |EscapeByte(c)| ==> Feed(p, EscapeByte(c)[..k]).mode.Text?
  {
    var t := EscapeByte(c);
    if |t| == 6 {
      FeedHexEscape(p, isKey, acc, t, c as int);
    } else {
      FeedPrefix(p, t, 0);
      FeedPrefix(p, t, 1);
      if |t| == 1 {
        assert t[..1] == t;
      } else {
        assert Feed(p, t[..1]) == Parser(Text(isKey, acc, Backslash), p.stack);
        FeedPrefix(p, t, 2);
        assert t[..2] == t;
      }
    }
  }

  lemma {:induction false} FeedEscapeAll(p: Parser, isKey: bool, acc: string, s: ByteStr)
    requires InText(p, isKey, acc)
    ensures Feed(p, EscapeAll(s)) == Parser(Text(isKey, acc + s, Plain), p.stack)
  {
    if s == [] {
      assert acc + s == acc;
    } else {
      var init, c := s[..|s| - 1], s[|s| - 1];
      FeedEscapeAll(p, isKey, acc, init);
      FeedAppend(p, EscapeAll(init), EscapeByte(c));
      FeedEscape(Feed(p, EscapeAll(init)), isKey, acc + init, c);
      assert acc + init + [c] == acc + s;
    }
  }

  /** Section 7 read backwards: a string literal ends where it was closed, holding its bytes. */
  lemma {:induction false} FeedLiteral(p: Parser, isKey: bool, s: ByteStr)
    requires Step(p, '\"') == Parser(Text(isKey, "", Plain), p.stack)
    ensures Feed(p, JsonString(s)) == EndText(isKey, s, p.stack)
  {
    var q := Parser(Text(isKey, "", Plain), p.stack);
    FeedChar(p, '\"');
    FeedAppend(p, "\"", EscapeAll(s));
    FeedEscapeAll(q, isKey, "", s);
    assert "" + s == s;
    FeedAppend(p, "\"" + EscapeAll(s), "\"");
    FeedChar(Feed(p, "\"" + EscapeAll(s)), '\"');
  }

  /** Decoding what AppendJsonString wrote gives back every byte string. */
  lemma {:induction false} StringReads(s: ByteStr)
    ensures Reads(JsonString(s), Str(s))
  {
    forall p: Parser | WantsValue(p)
      ensures Settle(Feed(p, JsonString(s))) == Complete(p.stack, Str(s))
    {
      FeedLiteral(p, false, s);
    }
  }

  /** The first unescaped quote after the opening one is the last character of the literal. */
  lemma {:induction false} StringStaysOpen(p: Parser, isKey: bool, s: ByteStr, k: nat)
    requires Step(p, '\"') == Parser(Text(isKey, "", Plain), p.stack)
    requires 1 <= k < |JsonString(s)|
    ensures Feed(p, JsonString(s)[..k]).mode.Text?
  {
    assert JsonString(s)[..k] == "\"" + EscapeAll(s)[..k - 1];
    FeedAppend(p, "\"", EscapeAll(s)[..k - 1]);
    FeedChar(p, '\"');
    EscapesStayOpen(Parser(Text(isKey, "", Plain), p.stack), isKey, s, k - 1);
  }

  lemma {:induction false} EscapesStayOpen(p: Parser, isKey: bool, s: ByteStr, k: nat)
    requires InText(p, isKey, "") && k <= |EscapeAll(s)|
    ensures Feed(p, EscapeAll(s)[..k]).mode.Text?
    decreases |s|
  {
    if s != [] {
      var init, c := s[..|s| - 1], s[|s| - 1];
      var m := |EscapeAll(init)|;
      if k <= m {
        assert EscapeAll(s)[..k] == EscapeAll(init)[..k];
        EscapesStayOpen(p, isKey, init, k);
      } else {
        assert EscapeAll(s)[..k] == EscapeAll(init) + EscapeByte(c)[..k - m];
        FeedEscapeAll(p, isKey, "", init);
        FeedAppend(p, EscapeAll(init), EscapeByte(c)[..k - m]);
        FeedEscape(Feed(p, EscapeAll(init)), isKey, "" + init, c);
      }
    }
  }

  lemma {:induction false} EscapeIsPrintable(s: ByteStr, k: nat)
    requires k < |EscapeAll(s)|
    ensures 0x20 <= EscapeAll(s)[k] as int <= 0x7E
  {
    var init := s[..|s| - 1];
    if k < |EscapeAll(init)| {
      EscapeIsPrintable(init, k);
    } else {
      assert EscapeAll(s)[k] == EscapeByte(s[|s| - 1])[k - |EscapeAll(init)|];
    }
  }

  /** Printable characters other than the quote and the backslash are not escaped. */
  predicate IsPlain(s: string) {
    forall i :: 0 <= i < |s| ==> 0x20 <= s[i] as int <= 0x7E && s[i] != '\"' && s[i] != '\\'
  }

  lemma {:induction false} PlainString(s: ByteStr)
    requires IsPlain(s)
    ensures EscapeAll(s) == s
    ensures JsonString(s) == "\"" + s + "\""
  {
    if s != [] {
      PlainString(s[..|s| - 1]);
      assert s == s[..|s| - 1] + [s[|s| - 1]];
    }
  }

  // ---------------------------------------------------------------- integers

  function Digit(d: nat): char
    requires d < 10
  {
    ('0' as int + d) as char
  }

  /** `%u` and `%llu`. */
  function Decimal(n: nat): string {
    if n < 10 then [Digit(n)] else Decimal(n / 10) + [Digit(n % 10)]
  }

  /** `%d` and `%lld`. */
  function SignedDecimal(i: int): string { if i < 0 then "-" + Decimal(-i) else Decimal(i) }

  function DecimalValue(s: string): int
    requires forall i :: 0 <= i < |s| ==> IsDigit(s[i])
  {
    if s == "" then 0 else 10 * DecimalValue(s[..|s| - 1]) + (s[|s| - 1] as int - '0' as int)
  }

  lemma {:induction false} DecimalRoundTrip(n: nat)
    ensures forall i :: 0 <= i < |Decimal(n)| ==> IsDigit(Decimal(n)[i])
    ensures DecimalValue(Decimal(n)) == n
  {
    if n >= 10 {
      DecimalRoundTrip(n / 10);
      assert Decimal(n)[..|Decimal(n)| - 1] == Decimal(n / 10);
    } else {
      assert DecimalValue("") == 0 && Decimal(n)[..0] == "";
    }
  }

  /** Base ten, most significant digit first. */
  lemma {:induction false} DecimalDigits()
    ensures Decimal(1024) == "1024" && Decimal(0) == "0"
  {
    assert Decimal(10) == Decimal(1) + "0" && Decimal(1) == "1";
    assert Decimal(102) == Decimal(10) + "2";
  }

  function SignedValue(s: string): int
    requires forall i :: 0 <= i < |s| ==> IsDigit(s[i]) || (i == 0 && s[0] == '-')
  {
    if s != "" && s[0] == '-' then 0 - DecimalValue(s[1..]) else DecimalValue(s)
  }

  /** What `%d` and `%lld` print denotes the integer, negative ones included. */
  lemma {:induction false} SignedDecimalRoundTrip(i: int)
    ensures var s := SignedDecimal(i);
            (forall k :: 0 <= k < |s| ==> IsDigit(s[k]) || (k == 0 && s[0] == '-')) && SignedValue(s) == i
  {
    DecimalRoundTrip(if i < 0 then -i else i);
    if i < 0 { assert SignedDecimal(i)[1..] == Decimal(-i); }
  }

  lemma {:induction false} DecimalRuns(part: NumPart, n: nat)
    requires part.NumStart? || part.Minus?
    ensures NumRun(part, Decimal(n)) == if n == 0 then Zero else IntDigits
  {
    if n < 10 {
      assert [Digit(n)][1..] == "";
    } else {
      DecimalRuns(part, n / 10);
      NumRunAppend(part, Decimal(n / 10), [Digit(n % 10)]);
      assert [Digit(n % 10)][1..] == "";
    }
  }

  /** What `%d` prints is a number of section 6: no leading zero, no leading plus. */
  lemma {:induction false} SignedDecimalReads(i: int)
    ensures IsNumber(SignedDecimal(i))
    ensures Reads(SignedDecimal(i), Num(SignedDecimal(i)))
  {
    if i < 0 {
      DecimalRuns(Minus, -i);
      assert ("-" + Decimal(-i))[1..] == Decimal(-i);
    } else {
      DecimalRuns(NumStart, i);
    }
    NumberReads(SignedDecimal(i));
  }

  // ---------------------------------------------------------------- values and fields

  /** A token printed for a double: module TestLog takes it as given. */
  type DoubleToken = t: string | t == "null" || IsNumber(t) witness "null"

  datatype LogValue =
    | LInt(i: int)
    | LUint(u: nat)
    | LDouble(token: DoubleToken)
    | LBool(b: bool)
    | LString(s: ByteStr)

  function ValueText(v: LogValue): string {
    match v
    case LInt(i) => SignedDecimal(i)
    case LUint(u) => Decimal(u)
    case LDouble(token) => token
    case LBool(b) => if b then "true" else "false"
    case LString(s) => JsonString(s)
  }

  function ValueJson(v: LogValue): Value {
    match v
    case LInt(i) => Num(SignedDecimal(i))
    case LUint(u) => Num(Decimal(u))
    case LDouble(token) => if token == "null" then Null else Num(token)
    case LBool(b) => Bool(b)
    case LString(s) => Str(s)
  }

  lemma {:induction false} ValueReads(v: LogValue)
    ensures Reads(ValueText(v), ValueJson(v))
  {
    match v
    case LInt(i) => SignedDecimalReads(i);
    case LUint(u) => SignedDecimalReads(u);
    case LDouble(token) => if token == "null" { WordReads("null"); } else { NumberReads(token); }
    case LBool(b) => if b { WordReads("true"); } else { WordReads("false"); }
    case LString(s) => StringReads(s);
  }

  method AppendValue(out: string, v: LogValue) returns (result: string)
    ensures result == out + ValueText(v)
  {
    match v
    case LInt(i) => result := out + SignedDecimal(i);
    case LUint(u) => result := out + Decimal(u);
    case LDouble(token) => result := out + token;
    case LBool(b) => result := out + if b then "true" else "false";
    case LString(s) => result := AppendJsonString(out, s);
  }

  /** One `"key": value` pair, what precedes it, and the value its text denotes. */
  datatype Entry = Entry(sep: string, key: ByteStr, text: string, value: Value)

  /** White space, after a comma unless the member is the first of its object. */
  predicate IsSeparator(first: bool, sep: string) {
    if first then AllWs(sep) else sep != "" && sep[0] == ',' && AllWs(sep[1..])
  }

  ghost predicate Good(first: bool, es: seq<Entry>) {
    forall i :: 0 <= i < |es| ==> Reads(es[i].text, es[i].value) && IsSeparator(first && i == 0, es[i].sep)
  }

  function KeyText(key: ByteStr): string { JsonString(key) + ": " }

  /** A key that is spelled out in the source. */
  function Key(key: ByteStr): string { "\"" + key + "\": " }

  lemma {:induction false} KeyIsLiteral(key: ByteStr)
    requires IsPlain(key)
    ensures Key(key) == KeyText(key)
  {
    PlainString(key);
  }

  function EntriesText(es: seq<Entry>): string {
    if es == [] then ""
    else
      var e := es[|es| - 1];
      EntriesText(es[..|es| - 1]) + (e.sep + KeyText(e.key)) + e.text
  }

  function Members(es: seq<Entry>): seq<Member> {
    seq(|es|, i requires 0 <= i < |es| => (es[i].key, es[i].value))
  }

  lemma {:induction false} EntriesSnoc(es: seq<Entry>, e: Entry)
    ensures EntriesText(es + [e]) == EntriesText(es) + (e.sep + KeyText(e.key)) + e.text
    ensures Members(es + [e]) == Members(es) + [(e.key, e.value)]
  {
    assert (es + [e])[..|es|] == es;
  }

  /** `p` stands in an object whose members so far are `ms`. */
  predicate InObject(p: Parser, outer: seq<Frame>, ms: seq<Member>) {
    Settle(p) == Parser(if ms == [] then WantKeyOrEnd else WantCommaOrEnd, outer + [InObj(ms, "")])
  }

  /** After a separator an object wants a key. */
  lemma {:induction false} FeedSeparator(p: Parser, outer: seq<Frame>, ms: seq<Member>, sep: string)
    requires InObject(p, outer, ms) && IsSeparator(ms == [], sep)
    ensures Feed(p, sep) == Parser(if ms == [] then WantKeyOrEnd else WantKey, outer + [InObj(ms, "")])
  {
    if ms == [] {
      assert Settle(p) == p;
      FeedWs(p, sep);
    } else {
      FeedSettled(p, sep);
      FeedWs(Parser(WantKey, outer + [InObj(ms, "")]), sep[1..]);
    }
  }

  /** A separator, a key and a colon lead to the key's value. */
  lemma {:induction false} FeedKey(p: Parser, outer: seq<Frame>, ms: seq<Member>, sep: string, key: ByteStr)
    requires InObject(p, outer, ms) && IsSeparator(ms == [], sep)
    ensures Feed(p, sep + KeyText(key)) == Parser(WantValue, outer + [InObj(ms, key)])
  {
    FeedSeparator(p, outer, ms, sep);
    FeedAppend(p, sep, KeyText(key));
    FeedKeyText(Parser(if ms == [] then WantKeyOrEnd else WantKey, outer + [InObj(ms, "")]), outer, ms, key);
  }

  lemma {:induction false} FeedKeyText(q: Parser, outer: seq<Frame>, ms: seq<Member>, key: ByteStr)
    requires (q.mode == WantKeyOrEnd || q.mode == WantKey) && q.stack == outer + [InObj(ms, "")]
    ensures Feed(q, KeyText(key)) == Parser(WantValue, outer + [InObj(ms, key)])
  {
    FeedLiteral(q, true, key);
    assert q.stack[..|q.stack| - 1] == outer;
    FeedAppend(q, JsonString(key), ": ");
    FeedColon(Parser(WantColon, outer + [InObj(ms, key)]));
  }

  lemma {:induction false} FeedColon(r: Parser)
    requires r.mode == WantColon
    ensures Feed(r, ": ") == Parser(WantValue, r.stack)
  {
    assert ": " == ":" + " ";
    FeedAppend(r, ":", " ");
    FeedChar(r, ':');
    FeedChar(Step(r, ':'), ' ');
  }

  /** ... and the value's text then adds the member. */
  lemma {:induction false} FeedMember(p: Parser, out: string, outer: seq<Frame>, ms: seq<Member>, e: Entry)
    requires InObject(Feed(p, out), outer, ms) && IsSeparator(ms == [], e.sep) && Reads(e.text, e.value)
    ensures InObject(Feed(p, out + (e.sep + KeyText(e.key)) + e.text), outer, ms + [(e.key, e.value)])
  {
    FeedKey(Feed(p, out), outer, ms, e.sep, e.key);
    FeedAppend(p, out, e.sep + KeyText(e.key));
    var q := Parser(WantValue, outer + [InObj(ms, e.key)]);
    FeedAppend(p, out + (e.sep + KeyText(e.key)), e.text);
    assert WantsValue(q) && Settle(Feed(q, e.text)) == Complete(q.stack, e.value);
    assert q.stack[..|q.stack| - 1] == outer;
  }

  /** A run of members extends the open object by exactly those members. */
  lemma {:induction false} FeedEntries(p: Parser, outer: seq<Frame>, ms: seq<Member>, es: seq<Entry>)
    requires InObject(p, outer, ms) && Good(ms == [], es)
    ensures InObject(Feed(p, EntriesText(es)), outer, ms + Members(es))
  {
    if es == [] {
      assert ms + Members(es) == ms;
    } else {
      var init, e := es[..|es| - 1], es[|es| - 1];
      assert es == init + [e];
      FeedEntries(p, outer, ms, init);
      EntriesSnoc(init, e);
      FeedMember(p, EntriesText(init), outer, ms + Members(init), e);
      assert ms + Members(es) == ms + Members(init) + [(e.key, e.value)];
    }
  }

  function ObjectText(es: seq<Entry>): string { "{" + EntriesText(es) + "}" }

  lemma {:induction false} FeedOpen(p: Parser)
    requires WantsValue(p)
    ensures Feed(p, "{") == Parser(WantKeyOrEnd, p.stack + [InObj([], "")])
    ensures Feed(p, "[") == Parser(WantValueOrEnd, p.stack + [InArr([])])
  {
    FeedChar(p, '{');
    FeedChar(p, '[');
  }

  lemma {:induction false} FeedCloseObject(p: Parser, outer: seq<Frame>, ms: seq<Member>)
    requires InObject(p, outer, ms)
    ensures Feed(p, "}") == Complete(outer, Obj(ms))
  {
    FeedSettled(p, "}");
    FeedChar(Settle(p), '}');
    assert (outer + [InObj(ms, "")])[..|outer|] == outer;
  }

  /** An object that is left open after its first members. */
  lemma {:induction false} FeedOpenObject(p: Parser, es: seq<Entry>)
    requires WantsValue(p) && Good(true, es)
    ensures InObject(Feed(p, "{" + EntriesText(es)), p.stack, Members(es))
  {
    FeedOpen(p);
    FeedEntries(Feed(p, "{"), p.stack, [], es);
    FeedAppend(p, "{", EntriesText(es));
    assert [] + Members(es) == Members(es);
  }

  lemma {:induction false} FeedObject(p: Parser, es: seq<Entry>)
    requires WantsValue(p) && Good(true, es)
    ensures Feed(p, ObjectText(es)) == Complete(p.stack, Obj(Members(es)))
  {
    FeedOpenObject(p, es);
    FeedAppend(p, "{" + EntriesText(es), "}");
    FeedCloseObject(Feed(p, "{" + EntriesText(es)), p.stack, Members(es));
  }

  lemma {:induction false} ObjectReads(es: seq<Entry>)
    requires Good(true, es)
    ensures Reads(ObjectText(es), Obj(Members(es)))
  {
    forall p: Parser | WantsValue(p)
      ensures Settle(Feed(p, ObjectText(es))) == Complete(p.stack, Obj(Members(es)))
    {
      FeedObject(p, es);
    }
  }

  // Continuing a text `out` that leaves an object open.

  lemma {:induction false} OpenArray(p: Parser, out: string, outer: seq<Frame>, ms: seq<Member>, sep: string,
      key: ByteStr)
    requires InObject(Feed(p, out), outer, ms) && IsSeparator(ms == [], sep) && IsPlain(key)
    ensures Feed(p, out + (sep + Key(key)) + "[") == Parser(WantValueOrEnd, outer + [InObj(ms, key), InArr([])])
  {
    KeyIsLiteral(key);
    FeedKey(Feed(p, out), outer, ms, sep, key);
    FeedAppend(p, out, sep + Key(key));
    FeedAppend(p, out + (sep + Key(key)), "[");
    FeedOpen(Parser(WantValue, outer + [InObj(ms, key)]));
    assert outer + [InObj(ms, key)] + [InArr([])] == outer + [InObj(ms, key), InArr([])];
  }

  /** Closing the innermost array adds it to the object around it. */
  lemma {:induction false} CloseArray(p: Parser, out: string, outer: seq<Frame>, ms: seq<Member>, key: string,
      items: seq<Value>, ws: string)
    requires Feed(p, out) == Parser(if items == [] then WantValueOrEnd else WantCommaOrEnd,
                                    outer + [InObj(ms, key), InArr(items)])
    requires AllWs(ws)
    ensures InObject(Feed(p, out + ws + "]"), outer, ms + [(key, Arr(items))])
  {
    var q := Feed(p, out);
    FeedAppend(p, out, ws);
    FeedWs(q, ws);
    FeedAppend(p, out + ws, "]");
    FeedChar(q, ']');
    assert q.stack[..|q.stack| - 1] == outer + [InObj(ms, key)];
    assert (outer + [InObj(ms, key)])[..|outer|] == outer;
  }

  lemma {:induction false} CloseObject(p: Parser, outer: seq<Frame>, ms: seq<Member>, ws: string)
    requires InObject(p, outer, ms) && ms != [] && AllWs(ws)
    ensures Feed(p, ws + "}") == Complete(outer, Obj(ms))
  {
    var r := Settle(p);
    FeedSettled(p, ws + "}");
    FeedAppend(r, ws, "}");
    FeedWs(r, ws);
    FeedCloseObject(r, outer, ms);
  }

  /** The end of an array that is the last member but `es` of its object, and the end of the object. */
  function CloseText(ws: string, es: seq<Entry>, ws': string): string { "" + ws + "]" + EntriesText(es) + (ws' + "}") }

  lemma {:induction false} FeedClose(p: Parser, outer: seq<Frame>, ms: seq<Member>, key: string, items: seq<Value>,
                  ws: string, es: seq<Entry>, ws': string)
    requires p == Parser(if items == [] then WantValueOrEnd else WantCommaOrEnd, outer + [InObj(ms, key), InArr(items)])
    requires AllWs(ws) && AllWs(ws') && Good(false, es)
    ensures Leads(p, CloseText(ws, es, ws'), Complete(outer, Obj(ms + [(key, Arr(items))] + Members(es))))
  {
    CloseArray(p, "", outer, ms, key, items, ws);
    var t := "" + ws + "]";
    var ms' := ms + [(key, Arr(items))];
    var q := Feed(p, t);
    FeedEntries(q, outer, ms', es);
    var r := Feed(q, EntriesText(es));
    CloseObject(r, outer, ms' + Members(es), ws');
    LeadsIsFeed(p, t, q);
    LeadsIsFeed(q, EntriesText(es), r);
    LeadsOn(p, t, q, EntriesText(es), r);
    var end := Complete(outer, Obj(ms' + Members(es)));
    LeadsIsFeed(r, ws' + "}", end);
    LeadsOn(p, t + EntriesText(es), r, ws' + "}", end);
  }

  type LogFields = seq<(ByteStr, LogValue)>

  function FieldEntries(fields: LogFields): seq<Entry> {
    seq(|fields|, i requires 0 <= i < |fields| =>
      Entry(if i == 0 then "" else ", ", fields[i].0, ValueText(fields[i].1), ValueJson(fields[i].1)))
  }

  function FieldsJson(fields: LogFields): Value {
    Obj(seq(|fields|, i requires 0 <= i < |fields| => (fields[i].0, ValueJson(fields[i].1))))
  }

  /** Appending one more member to an object text that is still open. */
  lemma {:induction false} Extend(out: string, es: seq<Entry>, e: Entry)
    ensures out + ("{" + EntriesText(es)) + (e.sep + KeyText(e.key)) + e.text == out + ("{" + EntriesText(es + [e]))
  {
    EntriesSnoc(es, e);
    var t := EntriesText(es);
    Assoc(out, "{" + t, e.sep + KeyText(e.key));
    Assoc(out, "{" + t + (e.sep + KeyText(e.key)), e.text);
    Assoc("{", t, e.sep + KeyText(e.key));
    Assoc("{", t + (e.sep + KeyText(e.key)), e.text);
  }

  /** `out` is an object text that is open after the members `es`. */
  ghost predicate Building(out: string, es: seq<Entry>) { out == "{" + EntriesText(es) }

  lemma {:induction false} Extended(out: string, es: seq<Entry>, e: Entry)
    requires Building(out, es) && IsPlain(e.key)
    ensures Building(out + (e.sep + Key(e.key)) + e.text, es + [e])
  {
    KeyIsLiteral(e.key);
    EntriesSnoc(es, e);
    var t := EntriesText(es);
    Assoc("{", t, e.sep + KeyText(e.key));
    Assoc("{", t + (e.sep + KeyText(e.key)), e.text);
  }

  /** LogFields::AppendJson, with the `first` flag that decides each separator. */
  method AppendFields(out: string, fields: LogFields) returns (result: string)
    ensures result == out + ObjectText(FieldEntries(fields))
  {
    result := out + "{";
    var first := true;
    ghost var es := FieldEntries(fields);
    for i := 0 to |fields|
      invariant first <==> i == 0
      invariant result == out + ("{" + EntriesText(es[..i]))
    {
      result := AppendField(result, first, fields[i].0, fields[i].1);
      first := false;
      assert es[..i + 1] == es[..i] + [es[i]];
      Extend(out, es[..i], es[i]);
    }
    assert es[..|es|] == es;
    Assoc(out, "{" + EntriesText(es), "}");
    result := result + "}";
  }

  method AppendField(before: string, first: bool, key: ByteStr, value: LogValue) returns (result: string)
    ensures result == before + ((if first then "" else ", ") + KeyText(key)) + ValueText(value)
  {
    ghost var sep := if first then "" else ", ";
    result := before;
    if !first {
      result := result + ", ";
    }
    assert result == before + sep;
    result := AppendJsonString(result, key);
    result := result + ": ";
    Assoc(before, sep, JsonString(key));
    Assoc(before, sep + JsonString(key), ": ");
    Assoc(sep, JsonString(key), ": ");
    result := AppendValue(result, value);
  }

  /** The fields of an event are read back in order, under their own keys. */
  lemma {:induction false} FieldsRead(fields: LogFields)
    ensures Reads(ObjectText(FieldEntries(fields)), FieldsJson(fields))
  {
    var es := FieldEntries(fields);
    forall i | 0 <= i < |es| ensures Reads(es[i].text, es[i].value) {
      ValueReads(fields[i].1);
    }
    ObjectReads(es);
    assert Members(es) == FieldsJson(fields).members;
  }

  // ---------------------------------------------------------------- hexadecimal dumps

  type U8 = x: int | 0 <= x < 256

  function UpperHex(d: nat): char
    requires d < 16
  {
    if d < 10 then ('0' as int + d) as char else ('A' as int + d - 10) as char
  }

  function HexPair(b: U8): ByteStr { [UpperHex(b / 16), UpperHex(b % 16)] }

  function HexBytes(data: seq<U8>): ByteStr {
    if data == [] then [] else HexBytes(data[..|data| - 1]) + HexPair(data[|data| - 1])
  }

  method AppendHex(out: string, data: seq<U8>) returns (result: string)
    ensures result == out + HexBytes(data)
  {
    result := out;
    for i := 0 to |data|
      invariant result == out + HexBytes(data[..i])
    {
      assert data[..i + 1][..i] == data[..i];
      Assoc(out, HexBytes(data[..i]), HexPair(data[i]));
      assert [UpperHex(data[i] / 16)] + [UpperHex(data[i] % 16)] == HexPair(data[i]);
      Assoc(result, [UpperHex(data[i] / 16)], [UpperHex(data[i] % 16)]);
      result := result + [UpperHex(data[i] / 16)];
      result := result + [UpperHex(data[i] % 16)];
    }
    assert data[..|data|] == data;
  }

  function HexDecode(s: string): seq<int> {
    if |s| < 2 then [] else HexDecode(s[..|s| - 2]) + [16 * HexDigit(s[|s| - 2]) + HexDigit(s[|s| - 1])]
  }

  lemma {:induction false} HexPairDecodes(b: U8)
    ensures 16 * HexDigit(HexPair(b)[0]) + HexDigit(HexPair(b)[1]) == b
    ensures IsPlain(HexPair(b))
  {
    HexDigitOf(b / 16);
    HexDigitOf(b % 16);
  }

  lemma {:induction false} HexDigitOf(d: nat)
    requires d < 16
    ensures HexDigit(UpperHex(d)) == d && IsPlain([UpperHex(d)])
  {
    assert [UpperHex(d)][0] == UpperHex(d);
  }

  /** Two upper-case digits a byte, the high one first. */
  lemma {:induction false} HexDigits()
    ensures HexBytes([0x1F, 0xA0]) == "1FA0"
  {
    var data: seq<U8> := [0x1F, 0xA0];
    assert data[..1] == [0x1F] && data[..1][..0] == [];
    assert HexPair(0x1F) == "1F" && HexPair(0xA0) == "A0";
    assert HexBytes(data[..1]) == [] + HexPair(0x1F);
  }

  lemma {:induction false} HexDecodeSnoc(s: string, pair: string)
    requires |pair| == 2
    ensures HexDecode(s + pair) == HexDecode(s) + [16 * HexDigit(pair[0]) + HexDigit(pair[1])]
  {
    assert (s + pair)[..|s + pair| - 2] == s;
  }

  lemma {:induction false} PlainAppend(a: string, b: string)
    requires IsPlain(a) && IsPlain(b)
    ensures IsPlain(a + b)
  {
  }

  lemma {:induction false} HexIsPlain(data: seq<U8>)
    ensures IsPlain(HexBytes(data))
  {
    if data != [] {
      HexIsPlain(data[..|data| - 1]);
      HexPairDecodes(data[|data| - 1]);
      PlainAppend(HexBytes(data[..|data| - 1]), HexPair(data[|data| - 1]));
    }
  }

  /** A dump loses nothing. */
  lemma {:induction false} HexRoundTrip(data: seq<U8>)
    ensures |HexDecode(HexBytes(data))| == |data|
    ensures forall i :: 0 <= i < |data| ==> HexDecode(HexBytes(data))[i] == data[i]
  {
    if data != [] {
      var init, b := data[..|data| - 1], data[|data| - 1];
      HexRoundTrip(init);
      HexPairDecodes(b);
      HexDecodeSnoc(HexBytes(init), HexPair(b));
    }
  }
}
