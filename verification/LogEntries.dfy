/** What becomes of a recorded value: it stays, wherever the containers around it go. */
module LogEntries {
  import opened Json
  import opened TestLog

  /** w is v or lies inside it. */
  ghost predicate Within(w: Value, v: Value) {
    || w == v
    || (v.Arr? && exists i :: 0 <= i < |v.items| && Within(w, v.items[i]))
    || (v.Obj? && exists i :: 0 <= i < |v.members| && Within(w, v.members[i].1))
  }

  ghost predicate InItems(w: Value, items: seq<Value>) { exists i :: 0 <= i < |items| && Within(w, items[i]) }

  ghost predicate InMembers(w: Value, ms: seq<Member>) { exists i :: 0 <= i < |ms| && Within(w, ms[i].1) }

  ghost predicate InLevels(w: Value, ls: seq<Open>) { exists k :: 0 <= k < |ls| && InItems(w, ls[k].items) }

  /** w has been recorded. */
  ghost predicate InTree(w: Value, r: Recording) {
    match r
    case Untracked => false
    case SuiteOpen(levels) => InLevels(w, levels)
    case TestsOpen(_, head, tests) => InMembers(w, head) || InItems(w, tests)
    case TestOpen(_, head, tests, levels) => InMembers(w, head) || InItems(w, tests) || InLevels(w, levels)
    case Finished(_, doc) => Within(w, doc)
  }

  lemma {:induction false} InItemsAppend(w: Value, a: seq<Value>, b: seq<Value>)
    ensures InItems(w, a + b) <==> InItems(w, a) || InItems(w, b)
  {
    if i :| 0 <= i < |a| && Within(w, a[i]) { assert (a + b)[i] == a[i]; }
    if i :| 0 <= i < |b| && Within(w, b[i]) { assert (a + b)[|a| + i] == b[i]; }
    if i :| 0 <= i < |a + b| && Within(w, (a + b)[i]) {
      assert (a + b)[i] == if i < |a| then a[i] else b[i - |a|];
    }
  }

  lemma {:induction false} InMembersAppend(w: Value, a: seq<Member>, b: seq<Member>)
    ensures InMembers(w, a + b) <==> InMembers(w, a) || InMembers(w, b)
  {
    if i :| 0 <= i < |a| && Within(w, a[i].1) { assert (a + b)[i] == a[i]; }
    if i :| 0 <= i < |b| && Within(w, b[i].1) { assert (a + b)[|a| + i] == b[i]; }
    if i :| 0 <= i < |a + b| && Within(w, (a + b)[i].1) {
      assert (a + b)[i] == if i < |a| then a[i] else b[i - |a|];
    }
  }

  lemma {:induction false} InLevelsAppend(w: Value, a: seq<Open>, b: seq<Open>)
    ensures InLevels(w, a + b) <==> InLevels(w, a) || InLevels(w, b)
  {
    if i :| 0 <= i < |a| && InItems(w, a[i].items) { assert (a + b)[i] == a[i]; }
    if i :| 0 <= i < |b| && InItems(w, b[i].items) { assert (a + b)[|a| + i] == b[i]; }
    if i :| 0 <= i < |a + b| && InItems(w, (a + b)[i].items) {
      assert (a + b)[i] == if i < |a| then a[i] else b[i - |a|];
    }
  }

  lemma {:induction false} InOneItem(w: Value, v: Value)
    ensures InItems(w, [v]) <==> Within(w, v)
  {
    assert [v][0] == v;
  }

  lemma {:induction false} InOneMember(w: Value, key: string, v: Value)
    ensures InMembers(w, [(key, v)]) <==> Within(w, v)
  {
    assert [(key, v)][0].1 == v;
  }

  lemma {:induction false} InOneLevel(w: Value, o: Open)
    ensures InLevels(w, [o]) <==> InItems(w, o.items)
  {
    assert [o][0] == o;
  }

  lemma {:induction false} ArrayHolds(w: Value, items: seq<Value>)
    requires InItems(w, items)
    ensures Within(w, Arr(items))
  {
    var v := Arr(items);
    var i :| 0 <= i < |items| && Within(w, items[i]);
    assert Within(w, v.items[i]);
  }

  lemma {:induction false} ObjectHolds(w: Value, ms: seq<Member>)
    requires InMembers(w, ms)
    ensures Within(w, Obj(ms))
  {
    var v := Obj(ms);
    var i :| 0 <= i < |ms| && Within(w, ms[i].1);
    assert Within(w, v.members[i].1);
  }

  /** The events of an object that has been closed are still there. */
  lemma {:induction false} InClosed(w: Value, o: Open)
    requires InItems(w, o.items)
    ensures InMembers(w, Closed(o))
  {
    ArrayHolds(w, o.items);
    InOneMember(w, "events", Arr(o.items));
    InMembersAppend(w, o.head, [("events", Arr(o.items))]);
  }

  lemma {:induction false} InitLast(w: Value, ls: Levels)
    ensures InLevels(w, ls) <==> InLevels(w, Init(ls)) || InItems(w, Last(ls).items)
  {
    InLevelsAppend(w, Init(ls), [Last(ls)]);
    InOneLevel(w, Last(ls));
    assert Init(ls) + [Last(ls)] == ls;
  }

  lemma {:induction false} AddItemKeeps(w: Value, ls: Levels, v: Value)
    requires InLevels(w, ls) || Within(w, v)
    ensures InLevels(w, AddItem(ls, v))
  {
    var o := Open(Last(ls).head, Last(ls).items + [v]);
    InitLast(w, ls);
    InOneItem(w, v);
    InItemsAppend(w, Last(ls).items, [v]);
    InOneLevel(w, o);
    InLevelsAppend(w, Init(ls), [o]);
  }

  lemma {:induction false} CloseScopeKeeps(w: Value, ls: Levels)
    requires InLevels(w, ls)
    ensures InLevels(w, CloseScope(ls))
  {
    if |ls| >= 2 {
      InitLast(w, ls);
      if InItems(w, Last(ls).items) {
        InClosed(w, Last(ls));
        ObjectHolds(w, Closed(Last(ls)));
      }
      AddItemKeeps(w, Init(ls), Obj(Closed(Last(ls))));
    }
  }

  lemma {:induction false} CloseAllKeeps(w: Value, ls: Levels)
    requires InLevels(w, ls)
    ensures InItems(w, CloseAll(ls).items)
    decreases |ls|
  {
    if |ls| < 2 {
      InOneLevel(w, ls[0]);
      assert ls == [ls[0]];
    } else {
      CloseScopeKeeps(w, ls);
      CloseAllKeeps(w, CloseScope(ls));
    }
  }

  lemma {:induction false} ItemKeeps(w: Value, r: Recording, v: Value)
    requires InTree(w, r) || (HasLevels(r) && Within(w, v))
    ensures InTree(w, Item(r, v))
  {
    if HasLevels(r) && (InLevels(w, r.levels) || Within(w, v)) { AddItemKeeps(w, r.levels, v); }
  }

  lemma {:induction false} DeeperKeeps(w: Value, r: Recording, head: seq<Member>)
    requires InTree(w, r)
    ensures InTree(w, Deeper(r, head))
  {
    if HasLevels(r) { InLevelsAppend(w, r.levels, [Open(head, [])]); }
  }

  lemma {:induction false} ShallowerKeeps(w: Value, r: Recording)
    requires InTree(w, r)
    ensures InTree(w, Shallower(r))
  {
    if HasLevels(r) && InLevels(w, r.levels) { CloseScopeKeeps(w, r.levels); }
  }

  /** The object that is being written is not inside scopes that were left open. */
  predicate Whole(r: Recording) { r.SuiteOpen? || ((r.TestsOpen? || r.TestOpen?) && r.below == []) }

  lemma {:induction false} StartTestKeeps(w: Value, r: Recording, head: seq<Member>)
    requires InTree(w, r) && Whole(StartTest(r, head))
    ensures InTree(w, StartTest(r, head))
  {
    if r.SuiteOpen? {
      OneLevelLeft(r.levels);
      InOneLevel(w, r.levels[0]);
      InClosed(w, Last(r.levels));
    }
  }

  lemma {:induction false} OneLevelLeft(ls: Levels)
    requires Frames(Init(ls)) == []
    ensures |ls| == 1 && ls == [ls[0]]
  {
    assert |ls| > 1 ==> |Frames(Init(ls))| >= 2;
  }

  lemma {:induction false} FinishTestKeeps(w: Value, r: Recording, passed: bool, ms: nat)
    requires InTree(w, r)
    ensures InTree(w, FinishTest(r, passed, ms))
  {
    if r.TestOpen? {
      var o := CloseAll(r.levels);
      var v := Obj(Closed(o) + ResultMembers(passed, ms));
      if InLevels(w, r.levels) {
        CloseAllKeeps(w, r.levels);
        InClosed(w, o);
        InMembersAppend(w, Closed(o), ResultMembers(passed, ms));
        ObjectHolds(w, v.members);
      }
      InOneItem(w, v);
      InItemsAppend(w, r.tests, [v]);
    }
  }

  lemma {:induction false} FinishSuiteKeeps(w: Value, r: Recording, passed: nat, failed: nat, ms: nat)
    requires InTree(w, r) && (if r.SuiteOpen? then |r.levels| == 1 else r.TestsOpen?)
    ensures InTree(w, FinishSuite(r, passed, failed, ms))
  {
    if r.SuiteOpen? {
      var o := r.levels[0];
      InOneLevel(w, o);
      assert r.levels == [o];
      InClosed(w, o);
      DocumentKeeps(w, Closed(o), [], passed, failed, ms);
    } else {
      DocumentKeeps(w, r.head, r.tests, passed, failed, ms);
    }
  }

  lemma {:induction false} DocumentKeeps(w: Value, head: seq<Member>, tests: seq<Value>, passed: nat, failed: nat,
                                         ms: nat)
    requires InMembers(w, head) || InItems(w, tests)
    ensures Within(w, Obj(head + [("tests", Arr(tests))] + SummaryMembers(passed, failed, ms)))
  {
    if InItems(w, tests) { ArrayHolds(w, tests); }
    InOneMember(w, "tests", Arr(tests));
    InMembersAppend(w, head, [("tests", Arr(tests))]);
    InMembersAppend(w, head + [("tests", Arr(tests))], SummaryMembers(passed, failed, ms));
    ObjectHolds(w, head + [("tests", Arr(tests))] + SummaryMembers(passed, failed, ms));
  }

  // ---------------------------------------------------------------- scopes

  function ScopeValue(head: seq<Member>, items: seq<Value>): Value { Obj(head + [("events", Arr(items))]) }

  ghost predicate ScopeAt(head: seq<Member>, ls: seq<Open>) { exists k :: 1 <= k < |ls| && ls[k].head == head }

  /** A scope with that head is open or has been recorded. */
  ghost predicate HasScope(head: seq<Member>, r: Recording) {
    (HasLevels(r) && ScopeAt(head, r.levels)) || exists items :: InTree(ScopeValue(head, items), r)
  }

  lemma {:induction false} ItselfWithin(v: Value)
    ensures Within(v, v)
  {
  }

  lemma {:induction false} ScopeOpens(head: seq<Member>, r: Recording)
    requires HasLevels(r)
    ensures HasScope(head, Deeper(r, head))
  {
    var ls := r.levels + [Open(head, [])];
    assert ls[|ls| - 1].head == head;
  }

  /** Closing the innermost scope: it stays open, or it is recorded. */
  lemma {:induction false} ScopeCloses(head: seq<Member>, ls: Levels)
    requires ScopeAt(head, ls)
    ensures ScopeAt(head, CloseScope(ls)) || exists items :: InLevels(ScopeValue(head, items), CloseScope(ls))
  {
    var k :| 1 <= k < |ls| && ls[k].head == head;
    if k < |ls| - 1 {
      assert CloseScope(ls)[k].head == head;
    } else {
      var v := ScopeValue(head, Last(ls).items);
      ItselfWithin(v);
      AddItemKeeps(v, Init(ls), v);
    }
  }

  lemma {:induction false} ScopeFinallyCloses(head: seq<Member>, ls: Levels)
    requires ScopeAt(head, ls)
    ensures exists items :: InItems(ScopeValue(head, items), CloseAll(ls).items)
    decreases |ls|
  {
    ScopeCloses(head, ls);
    if ScopeAt(head, CloseScope(ls)) {
      ScopeFinallyCloses(head, CloseScope(ls));
    } else {
      var items :| InLevels(ScopeValue(head, items), CloseScope(ls));
      CloseAllKeeps(ScopeValue(head, items), CloseScope(ls));
    }
  }

  // ---------------------------------------------------------------- the head of the suite

  /** The suite's own members begin with `head`. */
  predicate SuiteBegins(head: seq<Member>, r: Recording) {
    match r
    case SuiteOpen(levels) => levels[0].head == head
    case TestsOpen(_, members, _) => BeginsWith(head, members)
    case TestOpen(_, members, _, _) => BeginsWith(head, members)
    case _ => false
  }

  /** `head`, and the events. */
  predicate BeginsWith(head: seq<Member>, members: seq<Member>) {
    |members| == |head| + 1 && members[|head|].1.Arr? &&
    members == head + [("events", Arr(members[|head|].1.items))]
  }
}
