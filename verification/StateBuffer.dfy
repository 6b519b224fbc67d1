/** PrintStateBuffer, a run-length printer (src/investigatory_tests/pfifo_cache1_main.cpp). */
module StateBuffer {

  /** A printed line: an entry, or how often the one before it repeats. */
  datatype Line<T> = Entry(e: T) | Repeated(n: nat)

  function Copies<T>(e: T, n: nat): seq<T> { seq(n, i => e) }

  /** The last line is an entry or repeats one. */
  predicate EndsInRun<T>(lines: seq<Line<T>>) {
    lines != [] && (lines[|lines| - 1].Entry? || (|lines| > 1 && lines[|lines| - 2].Entry?))
  }

  /** The entry that was printed last. */
  function Current<T>(lines: seq<Line<T>>): T
    requires EndsInRun(lines)
  {
    if lines[|lines| - 1].Entry? then lines[|lines| - 1].e else lines[|lines| - 2].e
  }

  /** Every count is positive and follows an entry, and no two entries in a row are equal. */
  predicate Canonical<T(==)>(lines: seq<Line<T>>) {
    lines == [] ||
    var init, last := lines[..|lines| - 1], lines[|lines| - 1];
    Canonical(init) &&
    match last
    case Entry(e) => init == [] || (EndsInRun(init) && Current(init) != e)
    case Repeated(n) => n > 0 && init != [] && init[|init| - 1].Entry?
  }

  /** What a reader of the lines makes of them. */
  function Expand<T(==)>(lines: seq<Line<T>>): seq<T>
    requires Canonical(lines)
  {
    if lines == [] then []
    else
      var init, last := lines[..|lines| - 1], lines[|lines| - 1];
      match last
      case Entry(e) => Expand(init) + [e]
      case Repeated(n) => Expand(init) + Copies(Current(init), n)
  }

  /** An entry and "repeated n times" stand for n + 1 equal entries. */
  lemma {:induction false} RepeatedCounts<T>(e: T, n: nat)
    requires n > 0
    ensures var lines := [Entry(e), Repeated(n)];
            Canonical(lines) && |Expand(lines)| == n + 1 && forall i :: 0 <= i <= n ==> Expand(lines)[i] == e
  {
    var lines := [Entry(e), Repeated(n)];
    assert lines[..1] == [Entry(e)] && lines[..1][..0] == [];
    assert Canonical(lines[..1][..0]) && Expand(lines[..1][..0]) == [];
    assert Canonical(lines[..1]) && Expand(lines[..1]) == [e];
  }

  lemma {:induction false} ExpandSnoc<T>(lines: seq<Line<T>>, line: Line<T>)
    requires Canonical(lines)
    requires line.Entry? ==> lines == [] || Current(lines) != line.e
    requires line.Repeated? ==> line.n > 0 && lines != [] && lines[|lines| - 1].Entry?
    ensures Canonical(lines + [line])
    ensures Expand(lines + [line]) == Expand(lines) + if line.Entry? then [line.e] else Copies(Current(lines), line.n)
    ensures Current(lines + [line]) == if line.Entry? then line.e else Current(lines)
  {
    assert (lines + [line])[..|lines|] == lines;
  }

  /** The lines, and repeats that are not printed yet, say what has been read. */
  ghost predicate Says<T>(lines: seq<Line<T>>, repeats: nat, read: seq<T>) {
    Canonical(lines) &&
    if read == [] then lines == [] && repeats == 0
    else
      lines != [] && lines[|lines| - 1].Entry? && Current(lines) == read[|read| - 1] &&
      Expand(lines) + Copies(Current(lines), repeats) == read
  }

  /** Prints the pending count, if any. */
  method Flush<T(==)>(lines: seq<Line<T>>, repeats: nat, ghost read: seq<T>) returns (r: seq<Line<T>>)
    requires Says(lines, repeats, read)
    ensures Canonical(r) && Expand(r) == read && (read != [] ==> EndsInRun(r) && Current(r) == read[|read| - 1])
    ensures read == [] ==> r == []
  {
    r := lines;
    if repeats > 0 {
      ExpandSnoc(lines, Repeated(repeats));
      r := r + [Repeated(repeats)];
    } else if read != [] {
      assert Expand(lines) + Copies(Current(lines), 0) == Expand(lines);
    }
  }

  lemma {:induction false} SaysAgain<T>(lines: seq<Line<T>>, repeats: nat, read: seq<T>, e: T)
    requires Says(lines, repeats, read) && read != [] && read[|read| - 1] == e
    ensures Says(lines, repeats + 1, read + [e])
  {
    assert Copies(e, repeats + 1) == Copies(e, repeats) + [e];
  }

  lemma {:induction false} SaysNew<T>(lines: seq<Line<T>>, read: seq<T>, e: T)
    requires Canonical(lines) && Expand(lines) == read
    requires if read == [] then lines == [] else EndsInRun(lines) && Current(lines) != e
    ensures Says(lines + [Entry(e)], 0, read + [e])
  {
    ExpandSnoc(lines, Entry(e));
    assert Expand(lines + [Entry(e)]) + Copies(e, 0) == read + [e];
  }

  /** Prints a buffer of any length; `blank` is what the last entry printed is before there is one. */
  method PrintStateBuffer<T(==)>(entries: seq<T>, blank: T) returns (lines: seq<Line<T>>)
    ensures Canonical(lines) && Expand(lines) == entries
  {
    lines := [];
    var lastEntrySet, repeats := blank, 0;
    for i := 0 to |entries|
      invariant Says(lines, repeats, entries[..i])
      invariant i > 0 ==> lastEntrySet == entries[i - 1]
    {
      assert entries[..i + 1] == entries[..i] + [entries[i]];
      lines, repeats, lastEntrySet := PrintEntry(lines, repeats, lastEntrySet, i == 0, entries[i], entries[..i]);
    }
    assert entries[..|entries|] == entries;
    lines := Flush(lines, repeats, entries);
  }

  /** One turn of the loop. */
  method PrintEntry<T(==)>(printed: seq<Line<T>>, pending: nat, last: T, first: bool, e: T, ghost read: seq<T>)
    returns (lines: seq<Line<T>>, repeats: nat, lastEntrySet: T)
    requires Says(printed, pending, read) && (first <==> read == []) && (!first ==> last == read[|read| - 1])
    ensures Says(lines, repeats, read + [e]) && lastEntrySet == e
  {
    lines, repeats, lastEntrySet := printed, pending, last;
    if !first && lastEntrySet == e {
      SaysAgain(lines, repeats, read, e);
      repeats := repeats + 1;
      return;
    }
    lastEntrySet := e;
    lines := Flush(lines, repeats, read);
    SaysNew(lines, read, e);
    lines := lines + [Entry(e)];
    repeats := 0;
  }

  // ---------------------------------------------------------------- nothing else prints the same buffer

  /** The lines before the last run, and the run's length. */
  function Before<T(==)>(lines: seq<Line<T>>): seq<Line<T>>
    requires Canonical(lines) && lines != []
  {
    if lines[|lines| - 1].Entry? then lines[..|lines| - 1] else lines[..|lines| - 2]
  }

  function RunLength<T(==)>(lines: seq<Line<T>>): (n: nat)
    requires Canonical(lines) && lines != []
    ensures n > 0
  {
    if lines[|lines| - 1].Entry? then 1 else 1 + lines[|lines| - 1].n
  }

  lemma {:induction false} LastRun<T>(lines: seq<Line<T>>)
    requires Canonical(lines) && lines != []
    ensures Canonical(Before(lines))
    ensures Expand(lines) == Expand(Before(lines)) + Copies(Current(lines), RunLength(lines))
    ensures Before(lines) == [] || Current(Before(lines)) != Current(lines)
  {
    if lines[|lines| - 1].Entry? { SingleRun(lines); } else { RepeatedRun(lines); }
  }

  lemma {:induction false} SingleRun<T>(lines: seq<Line<T>>)
    requires Canonical(lines) && lines != [] && lines[|lines| - 1].Entry?
    ensures var before := lines[..|lines| - 1];
            Canonical(before) && Expand(lines) == Expand(before) + Copies(Current(lines), 1)
            && (before == [] || Current(before) != Current(lines))
  {
  }

  lemma {:induction false} RepeatedRun<T>(lines: seq<Line<T>>)
    requires Canonical(lines) && lines != [] && lines[|lines| - 1].Repeated?
    ensures var before := lines[..|lines| - 2];
            Canonical(before) && Expand(lines) == Expand(before) + Copies(Current(lines), 1 + lines[|lines| - 1].n)
            && (before == [] || Current(before) != Current(lines))
  {
    var init := lines[..|lines| - 1];
    SingleRun(init);
    assert init[..|init| - 1] == lines[..|lines| - 2];
    CopiesJoin(Current(lines), 1, lines[|lines| - 1].n);
    assert Expand(lines) == Expand(init) + Copies(Current(lines), lines[|lines| - 1].n);
  }

  lemma {:induction false} CopiesJoin<T>(e: T, m: nat, n: nat)
    ensures Copies(e, m + n) == Copies(e, m) + Copies(e, n)
  {
  }

  /** An expansion ends with the current entry. */
  lemma {:induction false} ExpandEnds<T>(lines: seq<Line<T>>)
    requires Canonical(lines) && lines != []
    ensures Expand(lines) != [] && Expand(lines)[|Expand(lines)| - 1] == Current(lines)
  {
    LastRun(lines);
  }

  lemma {:induction false} LastBeyond<T>(x: seq<T>, y: seq<T>, e: T, m: nat, n: nat)
    requires x + Copies(e, m) == y + Copies(e, n) && |y| < |x|
    ensures x[|x| - 1] == e
  {
    var whole := y + Copies(e, n);
    assert whole[|x| - 1] == e;
    assert (x + Copies(e, m))[|x| - 1] == x[|x| - 1];
  }

  lemma {:induction false} RunsMatch<T>(x: seq<T>, y: seq<T>, e: T, m: nat, n: nat)
    requires x + Copies(e, m) == y + Copies(e, n)
    requires x != [] ==> x[|x| - 1] != e
    requires y != [] ==> y[|y| - 1] != e
    ensures x == y && m == n
  {
    var whole := x + Copies(e, m);
    if |y| < |x| { LastBeyond(x, y, e, m, n); }
    if |x| < |y| { LastBeyond(y, x, e, n, m); }
    assert x == whole[..|x|] && y == whole[..|y|];
  }

  /** A run before the last one ends otherwise. */
  lemma {:induction false} BeforeEnds<T>(lines: seq<Line<T>>)
    requires Canonical(lines) && lines != []
    ensures Canonical(Before(lines)) && |Before(lines)| < |lines|
    ensures var x := Expand(Before(lines)); x != [] ==> x[|x| - 1] != Current(lines)
  {
    LastRun(lines);
    if Before(lines) != [] { ExpandEnds(Before(lines)); }
  }

  /** Equal expansions end in the same run. */
  lemma {:induction false} SameLastRun<T>(a: seq<Line<T>>, b: seq<Line<T>>)
    requires Canonical(a) && Canonical(b) && a != [] && b != [] && Expand(a) == Expand(b)
    ensures Current(a) == Current(b) && RunLength(a) == RunLength(b)
    ensures Canonical(Before(a)) && Canonical(Before(b)) && Expand(Before(a)) == Expand(Before(b))
  {
    ExpandEnds(a);
    ExpandEnds(b);
    BeforeEnds(a);
    BeforeEnds(b);
    RunsSplit(a);
    RunsSplit(b);
    RunsMatch(Expand(Before(a)), Expand(Before(b)), Current(a), RunLength(a), RunLength(b));
  }

  lemma {:induction false} RunsSplit<T>(lines: seq<Line<T>>)
    requires Canonical(lines) && lines != []
    ensures Canonical(Before(lines))
    ensures Expand(lines) == Expand(Before(lines)) + Copies(Current(lines), RunLength(lines))
  {
    LastRun(lines);
  }

  /** The lines of a last run. */
  function Tail<T>(e: T, n: nat): seq<Line<T>> { if n <= 1 then [Entry(e)] else [Entry(e), Repeated(n - 1)] }

  lemma {:induction false} TailOf<T>(lines: seq<Line<T>>)
    requires Canonical(lines) && lines != []
    ensures lines == Before(lines) + Tail(Current(lines), RunLength(lines))
  {
    if lines[|lines| - 1].Repeated? {
      assert lines == lines[..|lines| - 2] + [lines[|lines| - 2], lines[|lines| - 1]];
    }
  }

  /** Canonical lines are determined by the buffer, so the printed text tells buffers apart. */
  lemma {:induction false} OnePrinting<T>(a: seq<Line<T>>, b: seq<Line<T>>)
    requires Canonical(a) && Canonical(b) && Expand(a) == Expand(b)
    ensures a == b
    decreases |a|
  {
    if a == [] {
      if b != [] { ExpandEnds(b); }
    } else if b == [] {
      ExpandEnds(a);
    } else {
      SameLastRun(a, b);
      BeforeEnds(a);
      OnePrinting(Before(a), Before(b));
      TailOf(a);
      TailOf(b);
    }
  }
}
