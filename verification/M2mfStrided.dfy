/** VerifyStridedOutput as a decision procedure (src/m2mf_tests/test_m2mf_format.cpp). */
module M2mfStrided {
  import opened M2mfBuffers

  const SPAN: nat := 1024

  type U32 = v: nat | v < 0x1_0000_0000

  datatype Strided = Strided(lineLen: U32, lines: U32, pitchIn: U32, pitchOut: U32, strideIn: U32, strideOut: U32)

  /** Offsets are computed in 32 bits. */
  function DstOff(g: Strided, y: nat, x: nat): nat { (y * g.pitchOut + x * g.strideOut) % 0x1_0000_0000 }

  function SrcOff(g: Strided, y: nat, x: nat): nat { (y * g.pitchIn + x * g.strideIn) % 0x1_0000_0000 }

  predicate InGrid(g: Strided, y: nat, x: nat) { y < g.lines && x < g.lineLen }

  /** Every source offset can be read. */
  ghost predicate SourceFits(g: Strided, src: seq<Byte>) {
    forall y: nat, x: nat :: InGrid(g, y, x) ==> SrcOff(g, y, x) < |src|
  }

  // ---------------------------------------------------------------- what a strided copy does

  /** The first x elements of line y are written into b; writes past its end are dropped. */
  function CopyLine(b: seq<Byte>, src: seq<Byte>, g: Strided, y: nat, x: nat): (r: seq<Byte>)
    requires y < g.lines && x <= g.lineLen && SourceFits(g, src)
    ensures |r| == |b|
  {
    if x == 0 then b
    else
      assert InGrid(g, y, x - 1);
      var r, off := CopyLine(b, src, g, y, x - 1), DstOff(g, y, x - 1);
      if off < |b| then r[off := src[SrcOff(g, y, x - 1)]] else r
  }

  function CopyLines(b: seq<Byte>, src: seq<Byte>, g: Strided, n: nat): (r: seq<Byte>)
    requires n <= g.lines && SourceFits(g, src)
    ensures |r| == |b|
  {
    if n == 0 then b else CopyLine(CopyLines(b, src, g, n - 1), src, g, n - 1, g.lineLen)
  }

  /** A strided copy over a canary background. */
  function StridedCopy(src: seq<Byte>, g: Strided, n: nat, canary: Byte): seq<Byte>
    requires SourceFits(g, src)
  {
    CopyLines(Canaries(n, canary), src, g, g.lines)
  }

  /** (y, x) comes before (n, m) and writes byte i. */
  predicate HitAt(g: Strided, n: nat, m: nat, i: nat, y: nat, x: nat) {
    InGrid(g, y, x) && (y < n || (y == n && x < m)) && DstOff(g, y, x) == i
  }

  /** Some element before (n, m) is written to byte i. */
  ghost predicate Hit(g: Strided, n: nat, m: nat, i: nat) { exists y: nat, x: nat :: HitAt(g, n, m, i, y, x) }

  lemma {:induction false} HitNext(g: Strided, n: nat, m: nat, i: nat)
    requires InGrid(g, n, m)
    ensures Hit(g, n, m + 1, i) <==> Hit(g, n, m, i) || DstOff(g, n, m) == i
  {
    var k := m + 1;
    if y: nat, x: nat :| HitAt(g, n, k, i, y, x) {
      if y == n && x == m { assert DstOff(g, n, m) == i; } else { assert HitAt(g, n, m, i, y, x); }
    }
    if y: nat, x: nat :| HitAt(g, n, m, i, y, x) { assert HitAt(g, n, m + 1, i, y, x); }
    if DstOff(g, n, m) == i { assert HitAt(g, n, m + 1, i, n, m); }
  }

  lemma {:induction false} HitNextLine(g: Strided, n: nat, i: nat)
    ensures Hit(g, n, g.lineLen, i) <==> Hit(g, n + 1, 0, i)
  {
    if y: nat, x: nat :| HitAt(g, n, g.lineLen, i, y, x) { assert HitAt(g, n + 1, 0, i, y, x); }
    var k := n + 1;
    if y: nat, x: nat :| HitAt(g, k, 0, i, y, x) { assert HitAt(g, n, g.lineLen, i, y, x); }
  }

  lemma {:induction false} NoHitYet(g: Strided, i: nat)
    ensures !Hit(g, 0, 0, i)
  {
  }

  /** Byte i of the copy so far: untouched, or the source byte of some element written there. */
  ghost predicate ComesFrom(g: Strided, b: Byte, src: seq<Byte>, n: nat, m: nat, i: nat, v: Byte)
    requires SourceFits(g, src)
  {
    if Hit(g, n, m, i) then exists y: nat, x: nat :: HitAt(g, n, m, i, y, x) && v == src[SrcOff(g, y, x)]
    else v == b
  }

  lemma {:induction false} ComesFromNext(g: Strided, b: Byte, src: seq<Byte>, n: nat, m: nat, i: nat, v: Byte)
    requires SourceFits(g, src) && InGrid(g, n, m) && ComesFrom(g, b, src, n, m, i, v)
    ensures ComesFrom(g, b, src, n, m + 1, i, if DstOff(g, n, m) == i then src[SrcOff(g, n, m)] else v)
  {
    HitNext(g, n, m, i);
    if DstOff(g, n, m) == i {
      assert HitAt(g, n, m + 1, i, n, m);
    } else if Hit(g, n, m, i) {
      var y: nat, x: nat :| HitAt(g, n, m, i, y, x) && v == src[SrcOff(g, y, x)];
      assert HitAt(g, n, m + 1, i, y, x);
    }
  }

  lemma {:induction false} CopyLineAt(b: seq<Byte>, canary: Byte, src: seq<Byte>, g: Strided, n: nat, m: nat, i: nat)
    requires n < g.lines && m <= g.lineLen && SourceFits(g, src) && i < |b|
    requires ComesFrom(g, canary, src, n, 0, i, b[i])
    ensures ComesFrom(g, canary, src, n, m, i, CopyLine(b, src, g, n, m)[i])
  {
    if m > 0 {
      CopyLineAt(b, canary, src, g, n, m - 1, i);
      assert InGrid(g, n, m - 1);
      ComesFromNext(g, canary, src, n, m - 1, i, CopyLine(b, src, g, n, m - 1)[i]);
    }
  }

  lemma {:induction false} CopyLinesAt(b: seq<Byte>, canary: Byte, src: seq<Byte>, g: Strided, n: nat, i: nat)
    requires n <= g.lines && SourceFits(g, src) && i < |b| && b[i] == canary
    ensures ComesFrom(g, canary, src, n, 0, i, CopyLines(b, src, g, n)[i])
  {
    if n == 0 {
      NoHitYet(g, i);
    } else {
      CopyLinesAt(b, canary, src, g, n - 1, i);
      CopyLineAt(CopyLines(b, src, g, n - 1), canary, src, g, n - 1, g.lineLen, i);
      NextLine(g, canary, src, n - 1, i, CopyLines(b, src, g, n)[i]);
    }
  }

  lemma {:induction false} NextLine(g: Strided, b: Byte, src: seq<Byte>, n: nat, i: nat, v: Byte)
    requires SourceFits(g, src) && ComesFrom(g, b, src, n, g.lineLen, i, v)
    ensures ComesFrom(g, b, src, n + 1, 0, i, v)
  {
    HitNextLine(g, n, i);
    if Hit(g, n, g.lineLen, i) {
      var y: nat, x: nat :| HitAt(g, n, g.lineLen, i, y, x) && v == src[SrcOff(g, y, x)];
      assert HitAt(g, n + 1, 0, i, y, x);
    }
  }

  // ---------------------------------------------------------------- what the check decides

  /** Elements before (n, m) lie in the first `size` bytes and hold their source bytes. */
  ghost predicate Matches(g: Strided, dst: seq<Byte>, src: seq<Byte>, size: nat, n: nat, m: nat)
    requires SourceFits(g, src) && size <= |dst|
  {
    forall y: nat, x: nat :: InGrid(g, y, x) && (y < n || (y == n && x < m)) ==>
      DstOff(g, y, x) < size && dst[DstOff(g, y, x)] == src[SrcOff(g, y, x)]
  }

  ghost predicate Untouched(g: Strided, dst: seq<Byte>, size: nat, canary: Byte)
    requires size <= |dst|
  {
    forall i: nat :: i < size && !Hit(g, g.lines, 0, i) ==> dst[i] == canary
  }

  /** The copy stays within the first `size` bytes. */
  ghost predicate InSpan(g: Strided, size: nat) {
    forall y: nat, x: nat :: InGrid(g, y, x) ==> DstOff(g, y, x) < size
  }

  /** Elements that share a destination byte share its value. */
  ghost predicate Agree(g: Strided, src: seq<Byte>)
    requires SourceFits(g, src)
  {
    forall y: nat, x: nat, v: nat, u: nat ::
      InGrid(g, y, x) && InGrid(g, v, u) && DstOff(g, y, x) == DstOff(g, v, u) ==>
      src[SrcOff(g, y, x)] == src[SrcOff(g, v, u)]
  }

  /** What the check compares decides whether the destination is a strided copy over canaries. */
  lemma {:induction false} MatchesIffCopied(g: Strided, dst: seq<Byte>, src: seq<Byte>, size: nat, canary: Byte)
    requires SourceFits(g, src) && size <= |dst|
    ensures Matches(g, dst, src, size, g.lines, 0) && Untouched(g, dst, size, canary) <==>
            InSpan(g, size) && Agree(g, src) && dst[..size] == StridedCopy(src, g, size, canary)
  {
    var copy := StridedCopy(src, g, size, canary);
    forall i: nat | i < size ensures ComesFrom(g, canary, src, g.lines, 0, i, copy[i]) {
      CopyLinesAt(Canaries(size, canary), canary, src, g, g.lines, i);
    }
    if Matches(g, dst, src, size, g.lines, 0) && Untouched(g, dst, size, canary) {
      CopiedIfMatches(g, dst, src, size, canary, copy);
    }
    if InSpan(g, size) && Agree(g, src) && dst[..size] == copy {
      MatchesIfCopied(g, dst, src, size, canary, copy);
    }
  }

  lemma {:induction false} CopiedIfMatches(g: Strided, dst: seq<Byte>, src: seq<Byte>, size: nat, canary: Byte,
      copy: seq<Byte>)
    requires SourceFits(g, src) && size <= |dst| && |copy| == size
    requires forall i: nat :: i < size ==> ComesFrom(g, canary, src, g.lines, 0, i, copy[i])
    requires Matches(g, dst, src, size, g.lines, 0) && Untouched(g, dst, size, canary)
    ensures InSpan(g, size) && Agree(g, src) && dst[..size] == copy
  {
    forall i: nat | i < size ensures dst[i] == copy[i] {
      assert ComesFrom(g, canary, src, g.lines, 0, i, copy[i]);
      if Hit(g, g.lines, 0, i) {
        var y: nat, x: nat :| HitAt(g, g.lines, 0, i, y, x) && copy[i] == src[SrcOff(g, y, x)];
        assert dst[DstOff(g, y, x)] == src[SrcOff(g, y, x)];
      }
    }
  }

  lemma {:induction false} MatchesIfCopied(g: Strided, dst: seq<Byte>, src: seq<Byte>, size: nat, canary: Byte,
      copy: seq<Byte>)
    requires SourceFits(g, src) && size <= |dst| && |copy| == size
    requires forall i: nat :: i < size ==> ComesFrom(g, canary, src, g.lines, 0, i, copy[i])
    requires InSpan(g, size) && Agree(g, src) && dst[..size] == copy
    ensures Matches(g, dst, src, size, g.lines, 0) && Untouched(g, dst, size, canary)
  {
    forall y: nat, x: nat | InGrid(g, y, x)
      ensures DstOff(g, y, x) < size && dst[DstOff(g, y, x)] == src[SrcOff(g, y, x)]
    {
      var i := DstOff(g, y, x);
      assert HitAt(g, g.lines, 0, i, y, x);
      assert ComesFrom(g, canary, src, g.lines, 0, i, copy[i]);
      var v: nat, u: nat :| HitAt(g, g.lines, 0, i, v, u) && copy[i] == src[SrcOff(g, v, u)];
      assert DstOff(g, y, x) == DstOff(g, v, u);
      assert dst[..size][i] == copy[i];
    }
    forall i: nat | i < size && !Hit(g, g.lines, 0, i) ensures dst[i] == canary {
      assert ComesFrom(g, canary, src, g.lines, 0, i, copy[i]);
      assert dst[..size][i] == copy[i];
    }
  }

  /** Element (y, x) in 32-bit arithmetic: where it lies in the destination, and the source byte it must hold. */
  predicate RightElement(g: Strided, dst: seq<Byte>, src: seq<Byte>, size: nat, y: nat, x: nat) {
    var to := (y * g.pitchOut + x * g.strideOut) % 0x1_0000_0000;
    var from := (y * g.pitchIn + x * g.strideIn) % 0x1_0000_0000;
    to < size && to < |dst| && from < |src| && dst[to] == src[from]
  }

  /** Element (y, x) is not written to byte i. */
  predicate Misses(g: Strided, i: nat, y: nat, x: nat) {
    (y * g.pitchOut + x * g.strideOut) % 0x1_0000_0000 != i
  }

  /** What the test promises of every byte of the span. */
  ghost predicate RightSpan(g: Strided, dst: seq<Byte>, src: seq<Byte>, size: nat, canary: Byte)
    requires size <= |dst|
  {
    && (forall y: nat, x: nat :: y < g.lines && x < g.lineLen ==> RightElement(g, dst, src, size, y, x))
    && forall i: nat :: i < size && (forall y: nat, x: nat :: y < g.lines && x < g.lineLen ==> Misses(g, i, y, x)) ==>
         dst[i] == canary
  }

  lemma {:induction false} HitIff(g: Strided, i: nat)
    ensures Hit(g, g.lines, 0, i) <==>
            !(forall y: nat, x: nat :: y < g.lines && x < g.lineLen ==> Misses(g, i, y, x))
  {
    if y: nat, x: nat :| HitAt(g, g.lines, 0, i, y, x) { assert !Misses(g, i, y, x); }
    if y: nat, x: nat :| y < g.lines && x < g.lineLen && !Misses(g, i, y, x) {
      assert HitAt(g, g.lines, 0, i, y, x);
    }
  }

  /** The comparisons hold exactly if every byte is what the test promises. */
  lemma {:induction false} MatchesIffRightSpan(g: Strided, dst: seq<Byte>, src: seq<Byte>, size: nat, canary: Byte)
    requires SourceFits(g, src) && size <= |dst|
    ensures Matches(g, dst, src, size, g.lines, 0) && Untouched(g, dst, size, canary) <==>
            RightSpan(g, dst, src, size, canary)
  {
    forall y: nat, x: nat | y < g.lines && x < g.lineLen
      ensures RightElement(g, dst, src, size, y, x) <==>
              DstOff(g, y, x) < size && dst[DstOff(g, y, x)] == src[SrcOff(g, y, x)]
    {
      assert InGrid(g, y, x);
    }
    forall i: nat | i < size
      ensures Hit(g, g.lines, 0, i) <==>
              !(forall y: nat, x: nat :: y < g.lines && x < g.lineLen ==> Misses(g, i, y, x))
    {
      HitIff(g, i);
    }
  }

  // ---------------------------------------------------------------- the check

  /** The bytes marked as written are those that elements before (n, m) hit. */
  ghost predicate Marked(w: seq<bool>, g: Strided, n: nat, m: nat) {
    forall i: nat :: i < |w| ==> (w[i] <==> Hit(g, n, m, i))
  }

  lemma {:induction false} MarkedNext(w: seq<bool>, g: Strided, n: nat, m: nat)
    requires InGrid(g, n, m) && Marked(w, g, n, m) && DstOff(g, n, m) < |w|
    ensures Marked(w[DstOff(g, n, m) := true], g, n, m + 1)
  {
    var k, marked := m + 1, w[DstOff(g, n, m) := true];
    forall i: nat | i < |w| ensures marked[i] <==> Hit(g, n, k, i) {
      HitNext(g, n, m, i);
      assert w[i] <==> Hit(g, n, m, i);
    }
  }

  lemma {:induction false} MarkedNextLine(w: seq<bool>, g: Strided, n: nat)
    requires Marked(w, g, n, g.lineLen)
    ensures Marked(w, g, n + 1, 0)
  {
    forall i: nat | i < |w| ensures Hit(g, n, g.lineLen, i) <==> Hit(g, n + 1, 0, i) { HitNextLine(g, n, i); }
  }

  lemma {:induction false} NothingMarked(w: seq<bool>, g: Strided)
    requires forall i :: 0 <= i < |w| ==> !w[i]
    ensures Marked(w, g, 0, 0)
  {
    forall i: nat | i < |w| ensures !Hit(g, 0, 0, i) { NoHitYet(g, i); }
  }

  /** One element. */
  method CheckElement(dst: array<Byte>, src: array<Byte>, g: Strided, size: nat, written: array<bool>, y: nat, x: nat)
    returns (ok: bool)
    requires SourceFits(g, src[..]) && size <= dst.Length && size <= written.Length && InGrid(g, y, x)
    requires Marked(written[..], g, y, x) && Matches(g, dst[..], src[..], size, y, x)
    requires written != dst as object && written != src as object
    modifies written
    ensures ok ==> Marked(written[..], g, y, x + 1) && Matches(g, dst[..], src[..], size, y, x + 1)
    ensures !ok ==> !Matches(g, dst[..], src[..], size, g.lines, 0)
  {
    assert SrcOff(g, y, x) < |src[..]|;
    var dstOff, srcOff := DstOff(g, y, x), SrcOff(g, y, x);
    if dstOff >= size { return false; }
    MarkedNext(written[..], g, y, x);
    written[dstOff] := true;
    assert written[..] == old(written[..])[dstOff := true];
    assert dst[..][dstOff] == dst[dstOff] && src[..][srcOff] == src[srcOff];
    ok := dst[dstOff] == src[srcOff];
  }

  /** Bytes that no element wrote must still hold the canary. */
  method CheckUntouched(dst: array<Byte>, ghost g: Strided, size: nat, written: array<bool>, canary: Byte)
    returns (ok: bool)
    requires size <= dst.Length && size <= written.Length && Marked(written[..], g, g.lines, 0)
    ensures ok <==> Untouched(g, dst[..], size, canary)
  {
    for i := 0 to size
      invariant forall k: nat :: k < i && !Hit(g, g.lines, 0, k) ==> dst[..][k] == canary
    {
      assert written[..][i] == written[i] && dst[..][i] == dst[i];
      if !written[i] && dst[i] != canary { return false; }
    }
    ok := true;
  }

  method CheckElements(dst: array<Byte>, src: array<Byte>, g: Strided, size: nat, written: array<bool>)
    returns (ok: bool)
    requires SourceFits(g, src[..]) && size <= dst.Length && size <= written.Length && Marked(written[..], g, 0, 0)
    requires written != dst as object && written != src as object
    modifies written
    ensures ok <==> Matches(g, dst[..], src[..], size, g.lines, 0)
    ensures ok ==> Marked(written[..], g, g.lines, 0)
  {
    for y := 0 to g.lines
      invariant Marked(written[..], g, y, 0) && Matches(g, dst[..], src[..], size, y, 0)
    {
      for x := 0 to g.lineLen
        invariant Marked(written[..], g, y, x) && Matches(g, dst[..], src[..], size, y, x)
      {
        ok := CheckElement(dst, src, g, size, written, y, x);
        if !ok { return; }
      }
      MarkedNextLine(written[..], g, y);
    }
    ok := true;
  }

  /**
    The check accepts exactly the destinations that are a strided copy of the source over a canary
    background, as long as the copy stays in the span and elements that share a byte agree on it.
   */
  method VerifyStridedOutput(dst: array<Byte>, src: array<Byte>, g: Strided, canary: Byte, totalSize: nat)
    returns (ok: bool)
    requires SourceFits(g, src[..]) && (if totalSize > SPAN then SPAN else totalSize) <= dst.Length
    ensures var size := if totalSize > SPAN then SPAN else totalSize;
            ok <==> InSpan(g, size) && Agree(g, src[..]) && dst[..size] == StridedCopy(src[..], g, size, canary)
    ensures ok <==> RightSpan(g, dst[..], src[..], if totalSize > 1024 then 1024 else totalSize, canary)
  {
    var size := if totalSize > SPAN then SPAN else totalSize;
    var written := new bool[SPAN](i => false);
    NothingMarked(written[..], g);
    MatchesIffCopied(g, dst[..], src[..], size, canary);
    MatchesIffRightSpan(g, dst[..], src[..], size, canary);
    assert dst[..][..size] == dst[..size];
    ok := CheckElements(dst, src, g, size, written);
    if ok { ok := CheckUntouched(dst, g, size, written, canary); }
  }

  // ---------------------------------------------------------------- when elements cannot overlap

  lemma {:induction false} RowBelow(y: nat, v: nat, pitch: nat)
    requires y < v
    ensures y * pitch + pitch <= v * pitch
  {
    var k := v - y - 1;
    assert v * pitch == y * pitch + pitch + k * pitch;
    assert k * pitch >= 0;
  }

  lemma {:induction false} RowsApart(y: nat, v: nat, pitch: nat, a: nat, b: nat)
    requires a < pitch && b < pitch && y * pitch + a == v * pitch + b
    ensures y == v && a == b
  {
    if y < v { RowBelow(y, v, pitch); }
    if v < y { RowBelow(v, y, pitch); }
  }

  lemma {:induction false} ColumnsApart(x: nat, u: nat, stride: nat)
    requires stride > 0 && x * stride == u * stride
    ensures x == u
  {
    if x < u { RowBelow(x, u, stride); }
    if u < x { RowBelow(u, x, stride); }
  }

  function Column(g: Strided, x: nat): nat { x * g.strideOut }

  function RowStart(g: Strided, y: nat): nat { y * g.pitchOut }

  /** Lines that fit in the output pitch, a stride of at least 1 and no 32-bit wrap keep elements apart. */
  ghost predicate Apart(g: Strided) {
    && g.strideOut > 0
    && (forall x: nat :: x < g.lineLen ==> Column(g, x) < g.pitchOut)
    && (forall y: nat, x: nat :: InGrid(g, y, x) ==> RowStart(g, y) + Column(g, x) < 0x1_0000_0000)
  }

  lemma {:induction false} ElementsApart(g: Strided, y: nat, x: nat, v: nat, u: nat)
    requires Apart(g) && InGrid(g, y, x) && InGrid(g, v, u) && DstOff(g, y, x) == DstOff(g, v, u)
    ensures y == v && x == u
  {
    var a, b, c, d := RowStart(g, y), Column(g, x), RowStart(g, v), Column(g, u);
    assert b < g.pitchOut && d < g.pitchOut && a + b < 0x1_0000_0000 && c + d < 0x1_0000_0000;
    assert a + b == DstOff(g, y, x) && c + d == DstOff(g, v, u);
    RowsApart(y, v, g.pitchOut, b, d);
    ColumnsApart(x, u, g.strideOut);
  }

  /** Then the check is exact without further conditions on the source. */
  lemma {:induction false} ApartAgrees(g: Strided, src: seq<Byte>)
    requires Apart(g) && SourceFits(g, src)
    ensures Agree(g, src)
  {
    forall y: nat, x: nat, v: nat, u: nat | InGrid(g, y, x) && InGrid(g, v, u) && DstOff(g, y, x) == DstOff(g, v, u)
      ensures src[SrcOff(g, y, x)] == src[SrcOff(g, v, u)]
    {
      ElementsApart(g, y, x, v, u);
    }
  }

  /** (line_len - 1) * stride_out < pitch_out bounds every column. */
  lemma {:induction false} LastColumnBounds(g: Strided, x: nat)
    requires x < g.lineLen && (g.lineLen - 1) * g.strideOut < g.pitchOut
    ensures Column(g, x) < g.pitchOut
  {
    if x < g.lineLen - 1 { RowBelow(x, g.lineLen - 1, g.strideOut); }
  }

  /** The bound keeps elements apart: a stride of at least 1, and lines that end within 32 bits. */
  lemma {:induction false} BoundKeepsApart(g: Strided)
    requires g.strideOut > 0 && g.lineLen > 0 && (g.lineLen - 1) * g.strideOut < g.pitchOut
    requires g.lines * g.pitchOut <= 0x1_0000_0000
    ensures Apart(g)
  {
    forall x: nat | x < g.lineLen ensures Column(g, x) < g.pitchOut { LastColumnBounds(g, x); }
    forall y: nat, x: nat | InGrid(g, y, x) ensures RowStart(g, y) + Column(g, x) < 0x1_0000_0000 {
      LastColumnBounds(g, x);
      RowBelow(y, g.lines, g.pitchOut);
    }
  }

  /** Under that bound the comparisons decide whether the destination is the strided copy, and nothing else. */
  lemma {:induction false} BoundedMatchesIffCopied(g: Strided, dst: seq<Byte>, src: seq<Byte>, size: nat, canary: Byte)
    requires SourceFits(g, src) && size <= |dst|
    requires g.strideOut > 0 && g.lineLen > 0 && (g.lineLen - 1) * g.strideOut < g.pitchOut
    requires g.lines * g.pitchOut <= 0x1_0000_0000
    ensures Matches(g, dst, src, size, g.lines, 0) && Untouched(g, dst, size, canary) <==>
            InSpan(g, size) && dst[..size] == StridedCopy(src, g, size, canary)
  {
    BoundKeepsApart(g);
    ApartAgrees(g, src);
    MatchesIffCopied(g, dst, src, size, canary);
  }

  /** ... and so does the check. */
  method VerifyBounded(dst: array<Byte>, src: array<Byte>, g: Strided, canary: Byte, totalSize: nat)
    returns (ok: bool)
    requires SourceFits(g, src[..]) && (if totalSize > SPAN then SPAN else totalSize) <= dst.Length
    requires g.strideOut > 0 && g.lineLen > 0 && (g.lineLen - 1) * g.strideOut < g.pitchOut
    requires g.lines * g.pitchOut <= 0x1_0000_0000
    ensures var size := if totalSize > SPAN then SPAN else totalSize;
            ok <==> InSpan(g, size) && dst[..size] == StridedCopy(src[..], g, size, canary)
  {
    BoundKeepsApart(g);
    ApartAgrees(g, src[..]);
    ok := VerifyStridedOutput(dst, src, g, canary, totalSize);
  }

  /** A stride of 0 meets the bound, too, but then the check rejects every destination, a correct copy included. */
  method VerifyStrideZero(dst: array<Byte>, src: array<Byte>, g: Strided, canary: Byte, totalSize: nat)
    returns (ok: bool)
    requires SourceFits(g, src[..]) && (if totalSize > SPAN then SPAN else totalSize) <= dst.Length
    requires g.strideOut == 0 && g.lines > 0 && g.lineLen > 1 && g.pitchOut > 0
    requires InGrid(g, 0, 0) && InGrid(g, 0, 1) && src[..][SrcOff(g, 0, 0)] != src[..][SrcOff(g, 0, 1)]
    ensures !ok
  {
    StrideZeroDisagrees(g, src[..]);
    ok := VerifyStridedOutput(dst, src, g, canary, totalSize);
  }

  /** A stride of 0 satisfies that bound, too, but its elements disagree unless the source repeats itself. */
  lemma {:induction false} StrideZeroDisagrees(g: Strided, src: seq<Byte>)
    requires SourceFits(g, src) && g.strideOut == 0 && g.lines > 0 && g.lineLen > 1 && g.pitchOut > 0
    requires InGrid(g, 0, 0) && InGrid(g, 0, 1) && src[SrcOff(g, 0, 0)] != src[SrcOff(g, 0, 1)]
    ensures (g.lineLen - 1) * g.strideOut < g.pitchOut && !Agree(g, src)
  {
    assert DstOff(g, 0, 0) == DstOff(g, 0, 1);
  }
}
