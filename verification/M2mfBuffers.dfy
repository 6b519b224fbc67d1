/** Pattern, canary and pitched-copy checks over byte buffers (src/m2mf_tests). */
module M2mfBuffers {

  type Byte = bv8

  function LowByte(i: nat): Byte { (i % 256) as bv8 }

  /** One step of the generator, from byte i to byte i + 1. */
  function Next(v: Byte, i: nat): Byte { (v * 109 + 89) ^ LowByte(i) }

  /** Byte i of the pattern. */
  function Pattern(seed: Byte, i: nat): Byte { if i == 0 then seed else Next(Pattern(seed, i - 1), i - 1) }

  /** 109 is odd, so a step loses nothing. */
  lemma {:induction false} NextIsInjective(v: Byte, w: Byte, i: nat)
    requires Next(v, i) == Next(w, i)
    ensures v == w
  {
    MixIsInjective(v, w, LowByte(i));
  }

  lemma {:induction false} MixIsInjective(v: Byte, w: Byte, mask: Byte)
    requires (v * 109 + 89) ^ mask == (w * 109 + 89) ^ mask
    ensures v == w
  {
    assert v * 109 + 89 == w * 109 + 89;
    assert (v * 109 + 89 - 89) * 101 == (w * 109 + 89 - 89) * 101;
  }

  /** ... and every byte has a predecessor. */
  lemma {:induction false} NextIsOnto(r: Byte, i: nat)
    ensures Next(((r ^ LowByte(i)) - 89) * 101, i) == r
  {
    MixInverts(r, LowByte(i));
  }

  lemma {:induction false} MixInverts(r: Byte, mask: Byte)
    ensures (((r ^ mask) - 89) * 101 * 109 + 89) ^ mask == r
  {
  }

  /** Patterns from different seeds differ at every index. */
  lemma {:induction false} SeedsDifferEverywhere(a: Byte, b: Byte, i: nat)
    ensures Pattern(a, i) == Pattern(b, i) <==> a == b
  {
    if i > 0 {
      SeedsDifferEverywhere(a, b, i - 1);
      if Pattern(a, i) == Pattern(b, i) { NextIsInjective(Pattern(a, i - 1), Pattern(b, i - 1), i - 1); }
    }
  }

  function PatternBytes(seed: Byte, n: nat): seq<Byte> { seq(n, i requires 0 <= i < n => Pattern(seed, i)) }

  /** The pattern of a seed is the one stretch that starts with it and follows the generator from byte to byte. */
  lemma {:induction false} PatternRecurs(s: seq<Byte>, seed: Byte)
    ensures s == PatternBytes(seed, |s|) <==>
            (s != [] ==> s[0] == seed) &&
            forall i :: 0 <= i < |s| - 1 ==> s[i + 1] == (s[i] * 109 + 89) ^ ((i % 256) as bv8)
  {
    if s == PatternBytes(seed, |s|) {
      forall i | 0 <= i < |s| - 1 ensures s[i + 1] == (s[i] * 109 + 89) ^ ((i % 256) as bv8) {
        assert s[i + 1] == Pattern(seed, i + 1) && s[i] == Pattern(seed, i);
      }
    }
    if (s != [] ==> s[0] == seed) &&
       forall i :: 0 <= i < |s| - 1 ==> s[i + 1] == (s[i] * 109 + 89) ^ ((i % 256) as bv8)
    {
      forall k | 0 <= k < |s| ensures s[k] == Pattern(seed, k) { RecursTo(s, seed, k); }
    }
  }

  lemma {:induction false} RecursTo(s: seq<Byte>, seed: Byte, k: nat)
    requires k < |s| && s[0] == seed
    requires forall i :: 0 <= i < |s| - 1 ==> s[i + 1] == (s[i] * 109 + 89) ^ ((i % 256) as bv8)
    ensures s[k] == Pattern(seed, k)
  {
    if k > 0 {
      RecursTo(s, seed, k - 1);
      assert s[k - 1 + 1] == (s[k - 1] * 109 + 89) ^ (((k - 1) % 256) as bv8);
    }
  }

  method FillPattern(buf: array<Byte>, first: nat, size: nat, seed: Byte)
    requires first + size <= buf.Length
    modifies buf
    ensures buf[first..first + size] == PatternBytes(seed, size)
    ensures buf[..first] == old(buf[..first]) && buf[first + size..] == old(buf[first + size..])
  {
    var val := seed;
    for i := 0 to size
      invariant val == Pattern(seed, i)
      invariant forall k :: 0 <= k < i ==> buf[first + k] == Pattern(seed, k)
      invariant buf[..first] == old(buf[..first]) && buf[first + size..] == old(buf[first + size..])
    {
      buf[first + i] := val;
      val := Next(val, i);
    }
  }

  method VerifyPattern(buf: array<Byte>, first: nat, size: nat, seed: Byte) returns (ok: bool)
    requires first + size <= buf.Length
    ensures ok <==> buf[first..first + size] == PatternBytes(seed, size)
  {
    var val := seed;
    for i := 0 to size
      invariant val == Pattern(seed, i)
      invariant forall k :: 0 <= k < i ==> buf[first + k] == Pattern(seed, k)
    {
      if buf[first + i] != val {
        assert buf[first..first + size][i] != PatternBytes(seed, size)[i];
        return false;
      }
      val := Next(val, i);
    }
    ok := true;
  }

  function Canaries(n: nat, canary: Byte): seq<Byte> { seq(n, i => canary) }

  method VerifyCanaries(buf: array<Byte>, first: nat, size: nat, canary: Byte) returns (ok: bool)
    requires first + size <= buf.Length
    ensures ok <==> buf[first..first + size] == Canaries(size, canary)
  {
    for i := 0 to size
      invariant buf[first..first + i] == Canaries(i, canary)
    {
      if buf[first + i] != canary {
        assert buf[first..first + size][i] != Canaries(size, canary)[i];
        return false;
      }
    }
    ok := true;
  }

  /** memcmp of two stretches. */
  method SameBytes(a: array<Byte>, i: nat, b: array<Byte>, j: nat, n: nat) returns (same: bool)
    requires i + n <= a.Length && j + n <= b.Length
    ensures same <==> a[i..i + n] == b[j..j + n]
  {
    for k := 0 to n
      invariant a[i..i + k] == b[j..j + k]
    {
      if a[i + k] != b[j + k] {
        assert a[i..i + n][k] != b[j..j + n][k];
        return false;
      }
    }
    same := true;
  }

  // ---------------------------------------------------------------- a pitched destination

  const CANARY_SIZE: nat := 256

  datatype Pitched = Pitched(lineLen: nat, lines: nat, pitchIn: nat, pitchOut: nat)

  /** Line y of the source, and the gap that follows it in the destination. */
  function Line(src: seq<Byte>, g: Pitched, y: nat): seq<Byte>
    requires g.lineLen <= g.pitchOut && y * g.pitchIn + g.lineLen <= |src|
  {
    src[y * g.pitchIn..y * g.pitchIn + g.lineLen] + Canaries(g.pitchOut - g.lineLen, 0xEE)
  }

  predicate Readable(src: seq<Byte>, g: Pitched, n: nat) {
    forall y :: 0 <= y < n ==> LineStart(g, y) + g.lineLen <= |src|
  }

  function LineStart(g: Pitched, y: nat): nat { y * g.pitchIn }

  /** What a correct pitched copy leaves in the destination. */
  function Copied(src: seq<Byte>, g: Pitched, n: nat): seq<Byte>
    requires g.lineLen <= g.pitchOut && Readable(src, g, n)
  {
    if n == 0 then []
    else
      assert LineStart(g, n - 1) + g.lineLen <= |src|;
      Copied(src, g, n - 1) + Line(src, g, n - 1)
  }

  /** The whole guarded buffer after a correct copy. */
  function Guarded(src: seq<Byte>, g: Pitched): seq<Byte>
    requires g.lineLen <= g.pitchOut && Readable(src, g, g.lines)
  {
    Canaries(CANARY_SIZE, 0x55) + Copied(src, g, g.lines) + Canaries(CANARY_SIZE, 0xAA)
  }

  lemma {:induction false} CopiedLength(src: seq<Byte>, g: Pitched, n: nat)
    requires g.lineLen <= g.pitchOut && Readable(src, g, n)
    ensures |Copied(src, g, n)| == n * g.pitchOut
  {
    if n > 0 {
      assert LineStart(g, n - 1) + g.lineLen <= |src|;
      CopiedLength(src, g, n - 1);
      assert |Line(src, g, n - 1)| == g.pitchOut;
      assert n * g.pitchOut == (n - 1) * g.pitchOut + g.pitchOut;
    }
  }

  lemma {:induction false} CopiedGrows(src: seq<Byte>, g: Pitched, n: nat, m: nat)
    requires g.lineLen <= g.pitchOut && n <= m && Readable(src, g, m)
    ensures Copied(src, g, n) <= Copied(src, g, m)
    decreases m - n
  {
    if n < m { CopiedGrows(src, g, n, m - 1); }
  }

  /** Byte by byte: element (y, x) of the lines copied so far, or the background where the line has ended. */
  lemma {:induction false} CopiedAt(src: seq<Byte>, g: Pitched, n: nat, y: nat, x: nat)
    requires g.lineLen <= g.pitchOut && Readable(src, g, n) && y < n && x < g.pitchOut
    ensures 0 <= y * g.pitchOut + x < |Copied(src, g, n)| && (x < g.lineLen ==> 0 <= y * g.pitchIn + x < |src|)
    ensures Copied(src, g, n)[y * g.pitchOut + x] == if x < g.lineLen then src[y * g.pitchIn + x] else 0xEE
  {
    CopiedLength(src, g, n);
    CopiedLength(src, g, n - 1);
    assert LineStart(g, n - 1) + g.lineLen <= |src|;
    assert Copied(src, g, n) == Copied(src, g, n - 1) + Line(src, g, n - 1);
    if y < n - 1 { CopiedAt(src, g, n - 1, y, x); }
  }

  /** One destination line: its data, and the gap after it if there is one. */
  method CheckLine(dst: array<Byte>, at: nat, src: array<Byte>, from: nat, n: nat, gap: nat) returns (ok: bool)
    requires at + n + gap <= dst.Length && from + n <= src.Length
    ensures ok <==> dst[..][at..at + n + gap] == src[..][from..from + n] + Canaries(gap, 0xEE)
  {
    ok := SameBytes(dst, at, src, from, n);
    if ok && gap > 0 { ok := VerifyCanaries(dst, at + n, gap, 0xEE); }
    SplitAt(dst[at..at + n + gap], n, src[from..from + n], Canaries(gap, 0xEE));
    assert dst[at..at + n + gap][..n] == dst[at..at + n];
    assert dst[at..at + n + gap][n..] == dst[at + n..at + n + gap];
    assert dst[..][at..at + n + gap] == dst[at..at + n + gap] && src[..][from..from + n] == src[from..from + n];
  }

  lemma {:induction false} SplitAt(s: seq<Byte>, k: nat, a: seq<Byte>, b: seq<Byte>)
    requires |a| == k && |s| == k + |b|
    ensures s == a + b <==> s[..k] == a && s[k..] == b
  {
    assert s == s[..k] + s[k..];
    assert (a + b)[..k] == a && (a + b)[k..] == b;
  }

  lemma {:induction false} ThreeParts(s: seq<Byte>, j: nat, k: nat, a: seq<Byte>, b: seq<Byte>, c: seq<Byte>)
    requires |a| == j && |a| + |b| == k && |s| == k + |c|
    ensures s == a + b + c <==> s[..j] == a && s[j..k] == b && s[k..] == c
  {
    SplitAt(s, k, a + b, c);
    SplitAt(s[..k], j, a, b);
    assert s[..k][..j] == s[..j] && s[..k][j..] == s[j..k];
  }

  /** The first n lines of the destination are right. */
  ghost predicate Rows(d: seq<Byte>, src: seq<Byte>, g: Pitched, n: nat)
    requires g.lineLen <= g.pitchOut && n <= g.lines && Readable(src, g, g.lines)
  {
    CANARY_SIZE <= |d| && Copied(src, g, n) <= d[CANARY_SIZE..]
  }

  lemma {:induction false} RowsSnoc(d: seq<Byte>, src: seq<Byte>, g: Pitched, y: nat, at: nat)
    requires g.lineLen <= g.pitchOut && y < g.lines && Readable(src, g, g.lines) && Rows(d, src, g, y)
    requires at == CANARY_SIZE + |Copied(src, g, y)| && at + g.pitchOut <= |d|
    ensures LineStart(g, y) + g.lineLen <= |src|
    ensures Rows(d, src, g, y + 1) <==> d[at..at + g.pitchOut] == Line(src, g, y)
  {
    assert LineStart(g, y) + g.lineLen <= |src|;
    var before, line, rest := Copied(src, g, y), Line(src, g, y), d[CANARY_SIZE..];
    assert Copied(src, g, y + 1) == before + line;
    SplitAt(rest[..|before + line|], |before|, before, line);
    assert rest[..|before + line|][|before|..] == d[at..at + g.pitchOut];
  }

  lemma {:induction false} RowsLater(d: seq<Byte>, src: seq<Byte>, g: Pitched, n: nat)
    requires g.lineLen <= g.pitchOut && n <= g.lines && Readable(src, g, g.lines)
    ensures Rows(d, src, g, g.lines) ==> Rows(d, src, g, n)
  {
    CopiedGrows(src, g, n, g.lines);
  }

  lemma {:induction false} RowFits(g: Pitched, y: nat, length: nat)
    requires y < g.lines && g.lines * g.pitchOut <= length
    ensures y * g.pitchOut + g.pitchOut <= length
  {
    assert (g.lines - y - 1) * g.pitchOut >= 0;
    assert g.lines * g.pitchOut == y * g.pitchOut + g.pitchOut + (g.lines - y - 1) * g.pitchOut;
  }

  /** Byte x of destination line y is a copy of byte x of source line y, or background where that line has ended. */
  predicate RightByte(d: seq<Byte>, src: seq<Byte>, g: Pitched, y: nat, x: nat) {
    var at, from := 256 + y * g.pitchOut + x, y * g.pitchIn + x;
    0 <= at < |d| && if x < g.lineLen then 0 <= from < |src| && d[at] == src[from] else d[at] == 0xEE
  }

  /** What the test promises of every byte: lines at the output pitch, the background after each, and two guards. */
  ghost predicate RightBytes(d: seq<Byte>, src: seq<Byte>, g: Pitched) {
    && |d| == 256 + g.lines * g.pitchOut + 256
    && (forall i :: 0 <= i < 256 ==> d[i] == 0x55)
    && (forall i :: |d| - 256 <= i < |d| ==> d[i] == 0xAA)
    && forall y: nat, x: nat :: y < g.lines && x < g.pitchOut ==> RightByte(d, src, g, y, x)
  }

  /** In a buffer that is right in every byte, line y is right. */
  lemma {:induction false} LineIsBytes(d: seq<Byte>, src: seq<Byte>, g: Pitched, y: nat, lo: nat)
    requires g.lineLen <= g.pitchOut && Readable(src, g, g.lines) && RightBytes(d, src, g)
    requires y < g.lines && lo == 256 + y * g.pitchOut && lo + g.pitchOut <= |d|
    ensures LineStart(g, y) + g.lineLen <= |src| && d[lo..lo + g.pitchOut] == Line(src, g, y)
  {
    assert LineStart(g, y) + g.lineLen <= |src|;
    forall x: nat | x < g.pitchOut ensures d[lo + x] == Line(src, g, y)[x] { assert RightByte(d, src, g, y, x); }
  }

  lemma {:induction false} LineHasRoom(d: seq<Byte>, src: seq<Byte>, g: Pitched, y: nat, at: nat)
    requires g.lineLen <= g.pitchOut && Readable(src, g, g.lines) && y < g.lines
    requires |d| == 256 + g.lines * g.pitchOut + 256 && at == 256 + |Copied(src, g, y)|
    ensures at == 256 + y * g.pitchOut && at + g.pitchOut <= |d|
  {
    CopiedLength(src, g, y);
    RowFits(g, y, |d| - 512);
  }

  lemma {:induction false} RightRow(d: seq<Byte>, src: seq<Byte>, g: Pitched, y: nat)
    requires g.lineLen <= g.pitchOut && Readable(src, g, g.lines) && RightBytes(d, src, g)
    requires y < g.lines && Rows(d, src, g, y)
    ensures Rows(d, src, g, y + 1)
  {
    var at := 256 + |Copied(src, g, y)|;
    LineHasRoom(d, src, g, y, at);
    LineIsBytes(d, src, g, y, at);
    RowsSnoc(d, src, g, y, at);
  }

  lemma {:induction false} NoRows(d: seq<Byte>, src: seq<Byte>, g: Pitched)
    requires g.lineLen <= g.pitchOut && Readable(src, g, g.lines) && |d| == 256 + g.lines * g.pitchOut + 256
    ensures Rows(d, src, g, 0)
  {
  }

  lemma {:induction false} RightRows(d: seq<Byte>, src: seq<Byte>, g: Pitched, n: nat)
    requires g.lineLen <= g.pitchOut && Readable(src, g, g.lines) && RightBytes(d, src, g) && n <= g.lines
    ensures Rows(d, src, g, n)
  {
    if n == 0 {
      NoRows(d, src, g);
    } else {
      RightRows(d, src, g, n - 1);
      RightRow(d, src, g, n - 1);
    }
  }

  lemma {:induction false} GuardedByte(src: seq<Byte>, g: Pitched, y: nat, x: nat, i: nat)
    requires g.lineLen <= g.pitchOut && Readable(src, g, g.lines) && y < g.lines && x < g.pitchOut
    requires i == y * g.pitchOut + x
    ensures RightByte(Guarded(src, g), src, g, y, x)
  {
    CopiedAt(src, g, g.lines, y, x);
    assert Guarded(src, g)[256 + i] == Copied(src, g, g.lines)[i];
  }

  lemma {:induction false} GuardedIsRight(src: seq<Byte>, g: Pitched)
    requires g.lineLen <= g.pitchOut && Readable(src, g, g.lines)
    ensures RightBytes(Guarded(src, g), src, g)
  {
    forall y: nat, x: nat | y < g.lines && x < g.pitchOut
      ensures RightByte(Guarded(src, g), src, g, y, x)
    {
      GuardedByte(src, g, y, x, y * g.pitchOut + x);
    }
    CopiedLength(src, g, g.lines);
  }

  /** Guarded is right in every byte, and nothing else is. */
  lemma {:induction false} GuardedIffRightBytes(d: seq<Byte>, src: seq<Byte>, g: Pitched)
    requires g.lineLen <= g.pitchOut && Readable(src, g, g.lines)
    ensures d == Guarded(src, g) <==> RightBytes(d, src, g)
  {
    GuardedIsRight(src, g);
    if RightBytes(d, src, g) {
      var high := |d| - 256;
      CopiedLength(src, g, g.lines);
      RightRows(d, src, g, g.lines);
      WholeBuffer(d, src, g, high);
      assert d[..high + CANARY_SIZE] == d;
      assert d[..256] == Canaries(CANARY_SIZE, 0x55) && d[high..high + 256] == Canaries(CANARY_SIZE, 0xAA);
    }
  }

  method CheckRow(dst: array<Byte>, src: array<Byte>, g: Pitched, y: nat, at: nat) returns (ok: bool)
    requires g.lineLen <= g.pitchOut && y < g.lines && Readable(src[..], g, g.lines)
    requires Rows(dst[..], src[..], g, y)
    requires at == CANARY_SIZE + |Copied(src[..], g, y)| && at + g.pitchOut <= dst.Length
    ensures ok <==> Rows(dst[..], src[..], g, y + 1)
  {
    RowsSnoc(dst[..], src[..], g, y, at);
    ok := CheckLine(dst, at, src, LineStart(g, y), g.lineLen, g.pitchOut - g.lineLen);
  }

  method CheckRows(dst: array<Byte>, src: array<Byte>, g: Pitched) returns (ok: bool)
    requires g.lineLen <= g.pitchOut && Readable(src[..], g, g.lines)
    requires CANARY_SIZE + g.lines * g.pitchOut <= dst.Length
    ensures ok <==> Rows(dst[..], src[..], g, g.lines)
  {
    ok := true;
    for y := 0 to g.lines
      invariant Rows(dst[..], src[..], g, y)
    {
      CopiedLength(src[..], g, y);
      RowFits(g, y, dst.Length - CANARY_SIZE);
      ok := CheckRow(dst, src, g, y, CANARY_SIZE + y * g.pitchOut);
      if !ok {
        RowsLater(dst[..], src[..], g, y + 1);
        return;
      }
    }
  }

  /** Rows, gaps and both guards together: the check passes exactly if the whole guarded buffer is right. */
  method CheckPitched(dst: array<Byte>, src: array<Byte>, g: Pitched) returns (ok: bool)
    requires g.lineLen <= g.pitchOut && Readable(src[..], g, g.lines)
    requires CANARY_SIZE + g.lines * g.pitchOut + CANARY_SIZE <= dst.Length
    ensures ok <==> dst[..CANARY_SIZE + g.lines * g.pitchOut + CANARY_SIZE] == Guarded(src[..], g)
    ensures ok <==> RightBytes(dst[..CANARY_SIZE + g.lines * g.pitchOut + CANARY_SIZE], src[..], g)
  {
    var high := CANARY_SIZE + g.lines * g.pitchOut;
    ok := CheckRows(dst, src, g);
    ghost var rows := ok;
    if ok { ok := VerifyCanaries(dst, 0, CANARY_SIZE, 0x55); }
    if ok { ok := VerifyCanaries(dst, high, CANARY_SIZE, 0xAA); }
    CopiedLength(src[..], g, g.lines);
    WholeBuffer(dst[..], src[..], g, high);
    GuardedIffRightBytes(dst[..high + CANARY_SIZE], src[..], g);
    assert dst[..high + CANARY_SIZE] == dst[..][..high + CANARY_SIZE];
    assert dst[0..0 + CANARY_SIZE] == dst[..][..CANARY_SIZE];
    assert dst[high..high + CANARY_SIZE] == dst[..][high..high + CANARY_SIZE];
  }

  lemma {:induction false} WholeBuffer(d: seq<Byte>, src: seq<Byte>, g: Pitched, high: nat)
    requires g.lineLen <= g.pitchOut && Readable(src, g, g.lines)
    requires high == CANARY_SIZE + |Copied(src, g, g.lines)| && high + CANARY_SIZE <= |d|
    ensures d[..high + CANARY_SIZE] == Guarded(src, g) <==>
            Rows(d, src, g, g.lines) && d[..CANARY_SIZE] == Canaries(CANARY_SIZE, 0x55) &&
            d[high..high + CANARY_SIZE] == Canaries(CANARY_SIZE, 0xAA)
  {
    var whole, middle := d[..high + CANARY_SIZE], Copied(src, g, g.lines);
    ThreeParts(whole, CANARY_SIZE, high, Canaries(CANARY_SIZE, 0x55), middle, Canaries(CANARY_SIZE, 0xAA));
    assert whole[..CANARY_SIZE] == d[..CANARY_SIZE] && whole[high..] == d[high..high + CANARY_SIZE];
    assert whole[CANARY_SIZE..high] == d[CANARY_SIZE..][..|middle|];
  }
}
