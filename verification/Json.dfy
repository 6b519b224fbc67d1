/**
  JSON texts (RFC 8259) read one character at a time.

  The parser is a pushdown automaton.  Its stack holds one frame per open array or object, each
  with the values read so far, so that the state reached on a truncated text still says which
  containers are open and what they hold.  Section numbers are those of RFC 8259.
 */
module Json {

  /** A parsed value.  Numbers keep their lexeme; object members keep their order. */
  datatype Value =
    | Null
    | Bool(b: bool)
    | Num(token: string)
    | Str(s: string)
    | Arr(items: seq<Value>)
    | Obj(members: seq<Member>)

  type Member = (string, Value)

  datatype Frame =
    | InArr(items: seq<Value>)
    | InObj(members: seq<Member>, key: string)

  /** Where the automaton stands inside a string (section 7). */
  datatype Esc =
    | Plain
    | Backslash
    | Hex(high: nat, digits: nat, code: nat)
    | WantLow(high: nat)
    | WantLowU(high: nat)

  /** Where the automaton stands inside a number (section 6). */
  datatype NumPart = NumStart | Minus | Zero | IntDigits | Point | FracDigits | Exp | ExpSign | ExpDigits | NotNum

  datatype Mode =
    | WantValue
    | WantValueOrEnd
    | WantKey
    | WantKeyOrEnd
    | WantColon
    | WantCommaOrEnd
    | Text(isKey: bool, acc: string, esc: Esc)
    | Number(token: string, part: NumPart)
    | Word(seen: string)
    | Done(v: Value)
    | Error

  datatype Parser = Parser(mode: Mode, stack: seq<Frame>)

  const START := Parser(WantValue, [])
  const FAIL := Parser(Error, [])

  predicate IsWs(c: char) { c == ' ' || c == '\t' || c == '\n' || c == '\r' }

  predicate IsDigit(c: char) { '0' <= c <= '9' }

  function HexDigit(c: char): (d: int)
    ensures -1 <= d < 16
  {
    if '0' <= c <= '9' then c as int - '0' as int
    else if 'a' <= c <= 'f' then c as int - 'a' as int + 10
    else if 'A' <= c <= 'F' then c as int - 'A' as int + 10
    else -1
  }

  /** The grammar of section 6 as an automaton. */
  function NumNext(part: NumPart, c: char): NumPart {
    match part
    case NumStart => if c == '-' then Minus else if c == '0' then Zero else if IsDigit(c) then IntDigits else NotNum
    case Minus => if c == '0' then Zero else if IsDigit(c) then IntDigits else NotNum
    case Zero => if c == '.' then Point else if c == 'e' || c == 'E' then Exp else NotNum
    case IntDigits =>
      if IsDigit(c) then IntDigits else if c == '.' then Point else if c == 'e' || c == 'E' then Exp else NotNum
    case Point => if IsDigit(c) then FracDigits else NotNum
    case FracDigits => if IsDigit(c) then FracDigits else if c == 'e' || c == 'E' then Exp else NotNum
    case Exp => if c == '+' || c == '-' then ExpSign else if IsDigit(c) then ExpDigits else NotNum
    case ExpSign => if IsDigit(c) then ExpDigits else NotNum
    case ExpDigits => if IsDigit(c) then ExpDigits else NotNum
    case NotNum => NotNum
  }

  predicate NumEnds(part: NumPart) { part.Zero? || part.IntDigits? || part.FracDigits? || part.ExpDigits? }

  function NumRun(part: NumPart, s: string): NumPart
    decreases |s|
  {
    if s == "" then part else NumRun(NumNext(part, s[0]), s[1..])
  }

  /** Whether `token` is a number of section 6. */
  predicate IsNumber(token: string) { NumEnds(NumRun(NumStart, token)) }

  /** The state after a whole value has been read with `stack` open. */
  function Complete(stack: seq<Frame>, v: Value): (q: Parser)
    ensures q.mode.Done? ==> q.stack == []
  {
    if stack == [] then Parser(Done(v), [])
    else
      var outer, top := stack[..|stack| - 1], stack[|stack| - 1];
      match top
      case InArr(items) => Parser(WantCommaOrEnd, outer + [InArr(items + [v])])
      case InObj(members, key) => Parser(WantCommaOrEnd, outer + [InObj(members + [(key, v)], "")])
  }

  /** A number has no terminator of its own: `Settle` ends a pending one. */
  function Settle(p: Parser): Parser {
    if !p.mode.Number? then p
    else if NumEnds(p.mode.part) then Complete(p.stack, Num(p.mode.token))
    else FAIL
  }

  /** Section 3: the first character of a value. */
  function StepValue(stack: seq<Frame>, c: char): Parser {
    if c == '\"' then Parser(Text(false, "", Plain), stack)
    else if c == '{' then Parser(WantKeyOrEnd, stack + [InObj([], "")])
    else if c == '[' then Parser(WantValueOrEnd, stack + [InArr([])])
    else if c == 't' || c == 'f' || c == 'n' then Parser(Word([c]), stack)
    else if NumNext(NumStart, c) != NotNum then Parser(Number([c], NumNext(NumStart, c)), stack)
    else FAIL
  }

  /** Closing the innermost container (sections 4 and 5). */
  function Close(stack: seq<Frame>, c: char): Parser {
    if stack == [] then FAIL
    else
      var outer, top := stack[..|stack| - 1], stack[|stack| - 1];
      match top
      case InArr(items) => if c == ']' then Complete(outer, Arr(items)) else FAIL
      case InObj(members, _) => if c == '}' then Complete(outer, Obj(members)) else FAIL
  }

  /** A character between tokens. */
  function StepBetween(p: Parser, c: char): Parser {
    if IsWs(c) then p
    else
      match p.mode
      case WantValue => StepValue(p.stack, c)
      case WantValueOrEnd => if c == ']' then Close(p.stack, c) else StepValue(p.stack, c)
      case WantKey => if c == '\"' then Parser(Text(true, "", Plain), p.stack) else FAIL
      case WantKeyOrEnd =>
        if c == '\"' then Parser(Text(true, "", Plain), p.stack)
        else if c == '}' then Close(p.stack, c)
        else FAIL
      case WantColon => if c == ':' then Parser(WantValue, p.stack) else FAIL
      case WantCommaOrEnd =>
        if c == ',' then
          if p.stack == [] then FAIL
          else if p.stack[|p.stack| - 1].InArr? then Parser(WantValue, p.stack)
          else Parser(WantKey, p.stack)
        else Close(p.stack, c)
      case _ => FAIL
  }

  /** Section 7: the two-character escapes; None for an unknown one is the empty string. */
  function ShortEscape(c: char): string {
    if c == '\"' then "\"" else if c == '\\' then "\\" else if c == '/' then "/"
    else if c == 'b' then [8 as char] else if c == 'f' then [12 as char]
    else if c == 'n' then "\n" else if c == 'r' then "\r" else if c == 't' then "\t" else ""
  }

  /** Section 7: the end of a `\uXXXX` escape; surrogate halves must come as a pair. */
  function EndHex(isKey: bool, acc: string, high: nat, code: nat): Mode {
    if high == 0 then
      if code < 0xD800 || 0xE000 <= code < 0x10000 then Text(isKey, acc + [code as char], Plain)
      else if 0xD800 <= code < 0xDC00 then Text(isKey, acc, WantLow(code))
      else Error
    else if 0xD800 <= high < 0xDC00 && 0xDC00 <= code < 0xE000 then
      Text(isKey, acc + [(0x10000 + (high - 0xD800) * 0x400 + (code - 0xDC00)) as char], Plain)
    else Error
  }

  function EndText(isKey: bool, acc: string, stack: seq<Frame>): Parser {
    if !isKey then Complete(stack, Str(acc))
    else if stack != [] && stack[|stack| - 1].InObj? then
      Parser(WantColon, stack[..|stack| - 1] + [InObj(stack[|stack| - 1].members, acc)])
    else FAIL
  }

  function StepText(p: Parser, c: char): Parser
    requires p.mode.Text?
  {
    var Text(isKey, acc, esc) := p.mode;
    match esc
    case Plain =>
      if c == '\"' then EndText(isKey, acc, p.stack)
      else if c == '\\' then p.(mode := Text(isKey, acc, Backslash))
      else if c as int < 0x20 then FAIL
      else p.(mode := Text(isKey, acc + [c], Plain))
    case Backslash =>
      if c == 'u' then p.(mode := Text(isKey, acc, Hex(0, 0, 0)))
      else if ShortEscape(c) == "" then FAIL
      else p.(mode := Text(isKey, acc + ShortEscape(c), Plain))
    case Hex(high, digits, code) =>
      var d := HexDigit(c);
      if d < 0 then FAIL
      else if digits < 3 then p.(mode := Text(isKey, acc, Hex(high, digits + 1, 16 * code + d)))
      else p.(mode := EndHex(isKey, acc, high, 16 * code + d))
    case WantLow(high) => if c == '\\' then p.(mode := Text(isKey, acc, WantLowU(high))) else FAIL
    case WantLowU(high) => if c == 'u' then p.(mode := Text(isKey, acc, Hex(high, 0, 0))) else FAIL
  }

  /** Section 3: the literal names. */
  function StepWord(p: Parser, c: char): Parser
    requires p.mode.Word?
  {
    var w := p.mode.seen + [c];
    if w == "true" then Complete(p.stack, Bool(true))
    else if w == "false" then Complete(p.stack, Bool(false))
    else if w == "null" then Complete(p.stack, Null)
    else if w <= "true" || w <= "false" || w <= "null" then Parser(Word(w), p.stack)
    else FAIL
  }

  function Step(p: Parser, c: char): (q: Parser)
    ensures p.mode.Done? || (q.mode.Done? ==> q.stack == [])
    ensures p.mode.Done? ==> q == if IsWs(c) then p else FAIL
  {
    if p.mode.Text? then StepText(p, c)
    else if p.mode.Word? then StepWord(p, c)
    else if p.mode.Number? && NumNext(p.mode.part, c) != NotNum then
      Parser(Number(p.mode.token + [c], NumNext(p.mode.part, c)), p.stack)
    else StepBetween(Settle(p), c)
  }

  function Feed(p: Parser, s: string): Parser
    decreases |s|
  {
    if s == "" then p else Feed(Step(p, s[0]), s[1..])
  }

  /** The document a text denotes: complete exactly when the end state is `Done`. */
  function Parse(s: string): Parser { Settle(Feed(START, s)) }

  // ---------------------------------------------------------------- feeding a text in pieces

  lemma {:induction false} FeedAppend(p: Parser, a: string, b: string)
    ensures Feed(p, a + b) == Feed(Feed(p, a), b)
    decreases |a|
  {
    if a == "" {
      assert a + b == b;
    } else {
      assert (a + b)[0] == a[0] && (a + b)[1..] == a[1..] + b;
      FeedAppend(Step(p, a[0]), a[1..], b);
    }
  }

  lemma {:induction false} FeedChar(p: Parser, c: char)
    ensures Feed(p, [c]) == Step(p, c)
  {
    assert [c][1..] == "";
  }

  /** Whatever comes after `text`, reading on from `p` over it is reading on from `q`. */
  ghost predicate Leads(p: Parser, text: string, q: Parser) {
    forall rest: string {:trigger Feed(p, text + rest)} :: Feed(p, text + rest) == Feed(q, rest)
  }

  lemma {:induction false} LeadsIsFeed(p: Parser, text: string, q: Parser)
    ensures Leads(p, text, q) <==> Feed(p, text) == q
  {
    forall rest: string ensures Feed(p, text + rest) == Feed(Feed(p, text), rest) {
      FeedAppend(p, text, rest);
    }
    assert Feed(p, text + "") == Feed(p, text) by { assert text + "" == text; }
    assert Leads(p, text, q) ==> Feed(p, text + "") == Feed(q, "");
  }

  lemma {:induction false} LeadsOn(p: Parser, a: string, q: Parser, b: string, r: Parser)
    requires Leads(p, a, q) && Leads(q, b, r)
    ensures Leads(p, a + b, r)
  {
    LeadsIsFeed(p, a, q);
    LeadsIsFeed(q, b, r);
    FeedAppend(p, a, b);
    LeadsIsFeed(p, a + b, r);
  }

  predicate Between(p: Parser) { !p.mode.Text? && !p.mode.Word? && !p.mode.Number? && !p.mode.Error? }

  predicate AllWs(s: string) { forall i :: 0 <= i < |s| ==> IsWs(s[i]) }

  lemma {:induction false} FeedWs(p: Parser, s: string)
    requires Between(p) && AllWs(s)
    ensures Feed(p, s) == p
  {
    if s != "" {
      FeedWs(Step(p, s[0]), s[1..]);
    }
  }

  predicate Delimits(c: char) { IsWs(c) || c == ',' || c == ']' || c == '}' }

  /** A delimiter sees a pending number as if it had been ended. */
  lemma {:induction false} FeedSettled(p: Parser, s: string)
    requires s != "" && Delimits(s[0])
    ensures Feed(p, s) == Feed(Settle(p), s)
  {
  }

  predicate WantsValue(p: Parser) { p.mode == WantValue || p.mode == WantValueOrEnd }

  /** `text` denotes `v` wherever a value may stand. */
  ghost predicate Reads(text: string, v: Value) {
    forall p: Parser :: WantsValue(p) ==> Settle(Feed(p, text)) == Complete(p.stack, v)
  }

  lemma {:induction false} FeedNumberPart(p: Parser, s: string)
    requires p.mode.Number? && NumRun(p.mode.part, s) != NotNum
    ensures Feed(p, s) == Parser(Number(p.mode.token + s, NumRun(p.mode.part, s)), p.stack)
    decreases |s|
  {
    if s == "" {
      assert p.mode.token + s == p.mode.token;
    } else {
      if NumNext(p.mode.part, s[0]) == NotNum { NotNumStays(s[1..]); }
      FeedNumberPart(Step(p, s[0]), s[1..]);
      assert (p.mode.token + [s[0]]) + s[1..] == p.mode.token + s;
    }
  }

  lemma {:induction false} NotNumStays(s: string)
    ensures NumRun(NotNum, s) == NotNum
  {
    if s != "" { NotNumStays(s[1..]); }
  }

  lemma {:induction false} NumRunAppend(part: NumPart, a: string, b: string)
    ensures NumRun(part, a + b) == NumRun(NumRun(part, a), b)
    decreases |a|
  {
    if a == "" {
      assert a + b == b;
    } else {
      assert (a + b)[0] == a[0] && (a + b)[1..] == a[1..] + b;
      NumRunAppend(NumNext(part, a[0]), a[1..], b);
    }
  }

  lemma {:induction false} FeedNumber(p: Parser, token: string)
    requires WantsValue(p) && IsNumber(token)
    ensures Feed(p, token) == Parser(Number(token, NumRun(NumStart, token)), p.stack)
  {
    var c, rest := token[0], token[1..];
    if NumNext(NumStart, c) == NotNum { NotNumStays(rest); }
    var q := Parser(Number([c], NumNext(NumStart, c)), p.stack);
    assert Step(p, c) == q;
    FeedNumberPart(q, rest);
    assert [c] + rest == token;
  }

  /** Every number of section 6 is read as itself. */
  lemma {:induction false} NumberReads(token: string)
    requires IsNumber(token)
    ensures Reads(token, Num(token))
  {
    forall p: Parser | WantsValue(p)
      ensures Settle(Feed(p, token)) == Complete(p.stack, Num(token))
    {
      FeedNumber(p, token);
    }
  }

  /** One step inside a literal name. */
  lemma {:induction false} FeedWord(p: Parser, w: string, name: string)
    requires name in {"true", "false", "null"}
    requires 0 < |w| < |name| && w <= name && p.mode == Word(w)
    ensures Step(p, name[|w|]) ==
            if |w| + 1 < |name| then Parser(Word(name[..|w| + 1]), p.stack)
            else Complete(p.stack, if name == "true" then Bool(true) else if name == "false" then Bool(false) else Null)
  {
    assert w + [name[|w|]] == name[..|w| + 1];
    assert (w + [name[|w|]])[0] == name[0];
  }

  lemma {:induction false} FeedRestOfWord(p: Parser, k: nat, name: string)
    requires name in {"true", "false", "null"}
    requires 0 < k < |name| && p.mode == Word(name[..k])
    ensures Feed(p, name[k..]) ==
            Complete(p.stack, if name == "true" then Bool(true) else if name == "false" then Bool(false) else Null)
    decreases |name| - k
  {
    FeedWord(p, name[..k], name);
    assert name[k..][1..] == name[k + 1..];
    if k + 1 < |name| { FeedRestOfWord(Step(p, name[k]), k + 1, name); }
  }

  lemma {:induction false} WordReads(name: string)
    requires name in {"true", "false", "null"}
    ensures Reads(name, if name == "true" then Bool(true) else if name == "false" then Bool(false) else Null)
  {
    var v := if name == "true" then Bool(true) else if name == "false" then Bool(false) else Null;
    forall p: Parser | WantsValue(p)
      ensures Settle(Feed(p, name)) == Complete(p.stack, v)
    {
      assert Step(p, name[0]) == Parser(Word([name[0]]), p.stack);
      assert name[..1] == [name[0]];
      FeedRestOfWord(Step(p, name[0]), 1, name);
    }
  }

  // ---------------------------------------------------------------- what a complete text excludes

  lemma {:induction false} ErrorStays(s: string)
    ensures Feed(FAIL, s) == FAIL
  {
    if s != "" { ErrorStays(s[1..]); }
  }

  /** Once a document is complete only white space may follow (section 2). */
  lemma {:induction false} OnlyWsAfterDone(p: Parser, s: string)
    requires p.mode.Done? && p.stack == []
    ensures if AllWs(s) then Feed(p, s) == p else Feed(p, s) == FAIL
  {
    if s != "" {
      if IsWs(s[0]) {
        OnlyWsAfterDone(p, s[1..]);
        assert AllWs(s[1..]) ==> AllWs(s);
      } else {
        ErrorStays(s[1..]);
      }
    }
  }

  lemma {:induction false} DoneHasNoFrames(p: Parser, s: string)
    requires p.mode.Done? ==> p.stack == []
    ensures Feed(p, s).mode.Done? ==> Feed(p, s).stack == []
    decreases |s|
  {
    if s != "" {
      var q := Step(p, s[0]);
      assert q.mode.Done? ==> q.stack == [];
      DoneHasNoFrames(q, s[1..]);
    }
  }

  lemma {:induction false} WsOnlySettles(p: Parser, s: string)
    requires AllWs(s) && Settle(Feed(p, s)).mode.Done?
    ensures Settle(p).mode.Done?
    decreases |s|
  {
    if s != "" {
      if p.mode.Word? { assert (p.mode.seen + [s[0]])[|p.mode.seen|] == s[0]; }
      WsOnlySettles(Step(p, s[0]), s[1..]);
    }
  }

  /** A number outside every container, or what comes of it. */
  predicate Flat(p: Parser) {
    p.stack == [] && (p.mode.Number? || p.mode.Error? || (p.mode.Done? && p.mode.v.Num?))
  }

  /** Text that starts with a number never opens a container and never becomes another value. */
  lemma {:induction false} FlatStays(p: Parser, s: string)
    requires Flat(p)
    ensures Flat(Feed(p, s))
    decreases |s|
  {
    if s != "" { FlatStays(Step(p, s[0]), s[1..]); }
  }

  /** A prefix that is a document by itself: its value is complete, or it is a number. */
  lemma {:induction false} DocumentPrefix(s: string, k: nat)
    requires k <= |s| && Parse(s[..k]).mode.Done?
    ensures Flat(Feed(START, s)) || (AllWs(s[k..]) && Feed(START, s) == Feed(START, s[..k])) || Feed(START, s) == FAIL
    ensures Feed(START, s).stack == []
  {
    var p := Feed(START, s[..k]);
    assert s == s[..k] + s[k..];
    FeedAppend(START, s[..k], s[k..]);
    DoneHasNoFrames(START, s[..k]);
    if p.mode.Done? {
      OnlyWsAfterDone(p, s[k..]);
    } else {
      assert Flat(p);
      FlatStays(p, s[k..]);
    }
  }

  /** While a container is open, no prefix of the text is a document either. */
  lemma {:induction false} OpenHasNoDocument(s: string, k: nat)
    requires k <= |s| && Feed(START, s).stack != []
    ensures !Parse(s[..k]).mode.Done?
  {
    if Parse(s[..k]).mode.Done? { DocumentPrefix(s, k); }
  }

  /**
    A document cut short is not a document, unless all that was cut is white space, and then it is
    one already.  Only a number can be cut to a shorter document: for an object this is exact.
   */
  lemma {:induction false} TruncatedIsIncomplete(s: string, k: nat)
    requires k <= |s| && Parse(s).mode.Done?
    ensures Feed(START, s[..k]).mode.Done? ==> AllWs(s[k..])
    ensures AllWs(s[k..]) ==> Parse(s[..k]).mode.Done?
    ensures !Parse(s).mode.v.Num? ==> (Parse(s[..k]).mode.Done? <==> AllWs(s[k..]))
  {
    assert s == s[..k] + s[k..];
    FeedAppend(START, s[..k], s[k..]);
    DoneHasNoFrames(START, s[..k]);
    if Feed(START, s[..k]).mode.Done? {
      OnlyWsAfterDone(Feed(START, s[..k]), s[k..]);
    }
    if AllWs(s[k..]) {
      WsOnlySettles(Feed(START, s[..k]), s[k..]);
    }
    if Parse(s[..k]).mode.Done? { DocumentPrefix(s, k); }
  }
}
