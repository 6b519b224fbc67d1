/**
  The register sequences of the interrupt tests, with time passing before every access and interrupts
  serviced as soon as they are asserted.  What each test finds is decided by the pace of its accesses and
  by where the alarm of the test before stood.
 */
module PtimerSequences {
  import opened Ptimer
  import opened PtimerTests

  // ---------------------------------------------------------------- setting up

  /** The old alarm has not been reached `lapse` counts on, unless its distance was at most that. */
  ghost predicate Counted(s: Timer, lapse: nat, distance: nat) {
    (s.pending <==> lapse >= distance) && (lapse < distance ==> Distance(s.t, s.alarm) == distance - lapse)
  }

  lemma {:induction false} StaysCounted(a: Timer, b: Timer, lapse: nat, d: nat, distance: nat)
    requires Counted(a, lapse, distance) && b == Step(a, Tick(d))
    ensures Counted(b, lapse + d, distance)
  {
    CrossesWhenReached(a.t, d, a.alarm);
    if lapse + d < distance { DistanceShrinks(a.t, d, a.alarm); }
  }

  lemma {:induction false} DistanceShrinks(t: nat, d: nat, alarm: U32)
    requires d < Distance(t, alarm)
    ensures Distance(t + d, alarm) == Distance(t, alarm) - d
  {
  }

  /** Only the low half counts. */
  lemma {:induction false} DistanceOfLow(t: nat, u: nat, alarm: U32)
    requires Low(t) == Low(u)
    ensures Distance(t, alarm) == Distance(u, alarm)
  {
    assert (t - alarm) % WRAP == (u - alarm) % WRAP;
  }

  /** The count t with `low` for its low half. */
  function StartAt(t: nat, low: U32): nat { t / WRAP * WRAP + low }

  lemma {:induction false} LowOfStart(t: nat, low: U32)
    ensures Low(StartAt(t, low)) == low
  {
  }

  /**
    The flag is up before the test's own alarm: the old alarm was reached in one of the k accesses after
    the acknowledgement, the last of which sets TIME_0 to `low`, or between that and the write to ALARM_0.
   */
  predicate Spoilt(s: Timer, pace: Pace, n: nat, k: nat, low: U32) {
    OldAlarmReached(s, pace, n, k) || pace.Delay(n + 2 + k) >= Distance(low, s.alarm)
  }

  /** Sets TIME_0 and then ALARM_0. */
  method SetTimeAndAlarm(r: Registers, low: U32, alarm: U32)
    requires low % 32 == 0 && alarm % 32 == 0
    modifies r`s, r`n
    ensures r.n == old(r.n) + 2
    ensures var at := old(r.s.t) + r.pace.Delay(old(r.n));
            var start := StartAt(at, low);
            r.s == Timer(start + r.pace.Delay(old(r.n) + 1), alarm,
                         || old(r.s.pending) || Crosses(old(r.s.t), at, old(r.s.alarm))
                         || Crosses(start, start + r.pace.Delay(old(r.n) + 1), old(r.s.alarm)),
                         old(r.s.enabled), old(r.s.fired))
  {
    r.Write(WriteTime0(low));
    r.Write(WriteAlarm(alarm));
  }

  /** The time is `x` counts after a TIME_0 of zero, as far as alarms can tell. */
  ghost predicate LowLike(s: Timer, x: nat) { Low(s.t) == Low(x) && Distance(s.t, s.alarm) == Distance(x, s.alarm) }

  lemma {:induction false} LowWritten(s: Timer, t: nat, low: U32, d: nat)
    requires s.t == StartAt(t, low) + d
    ensures LowLike(s, low + d)
  {
    LowOfStart(t, low);
    LowAdds(StartAt(t, low), d);
    LowAdds(low, d);
    DistanceOfLow(s.t, low + d, s.alarm);
  }

  /** ... of which the flag is up if the old alarm was reached, `lapse` counts having passed before. */
  method SetCounted(r: Registers, low: U32, alarm: U32, ghost lapse: nat, ghost distance: nat)
    requires low % 32 == 0 && alarm % 32 == 0 && Counted(r.s, lapse, distance)
    modifies r`s, r`n
    ensures r.n == old(r.n) + 2 && r.s.alarm == alarm && r.s.enabled == old(r.s.enabled) && r.s.fired == old(r.s.fired)
    ensures LowLike(r.s, low + r.pace.Delay(old(r.n) + 1))
    ensures r.s.pending <==>
      lapse + r.pace.Delay(old(r.n)) >= distance || r.pace.Delay(old(r.n) + 1) >= Distance(low, old(r.s.alarm))
  {
    ghost var d, e := r.pace.Delay(r.n), r.pace.Delay(r.n + 1);
    ghost var start := StartAt(r.s.t + d, low);
    StaysCounted(r.s, Step(r.s, Tick(d)), lapse, d, distance);
    LowOfStart(r.s.t + d, low);
    DistanceOfLow(start, low, r.s.alarm);
    CrossesWhenReached(start, e, r.s.alarm);
    SetTimeAndAlarm(r, low, alarm);
    LowWritten(r.s, old(r.s.t) + d, low, e);
  }

  /** Masks, acknowledges and sets TIME_0 and ALARM_0. */
  method SetUp(r: Registers, low: U32, alarm: U32)
    requires low % 32 == 0 && alarm % 32 == 0
    modifies r`s, r`n
    ensures r.n == old(r.n) + 4 && r.s.alarm == alarm && !r.s.enabled && r.s.fired == old(r.s.fired)
    ensures LowLike(r.s, low + r.pace.Delay(old(r.n) + 3))
    ensures r.s.pending <==> Spoilt(old(r.s), r.pace, old(r.n), 1, low)
  {
    ShortLapses(r.pace, r.n + 2);
    LapseSplits(r.pace, r.n, 2, 1);
    r.Quiet();
    SetCounted(r, low, alarm, 0, Distance(r.s.t, r.s.alarm));
  }

  /** ... with TIME_1 set before, which leaves the low half alone. */
  method SetUpTurn(r: Registers, high: U32, low: U32, alarm: U32)
    requires low % 32 == 0 && alarm % 32 == 0
    modifies r`s, r`n
    ensures r.n == old(r.n) + 5 && r.s.alarm == alarm && !r.s.enabled && r.s.fired == old(r.s.fired)
    ensures LowLike(r.s, low + r.pace.Delay(old(r.n) + 4))
    ensures r.s.pending <==> Spoilt(old(r.s), r.pace, old(r.n), 2, low)
  {
    ShortLapses(r.pace, r.n + 2);
    LapseSplits(r.pace, r.n, 2, 1);
    r.Quiet();
    ghost var acked := r.s;
    ghost var distance := Distance(r.s.t, r.s.alarm);
    SetTurn(r, high, distance);
    SetCounted(r, low, alarm, r.pace.Delay(old(r.n) + 2), distance);
  }

  method SetTurn(r: Registers, high: U32, ghost distance: nat)
    requires Counted(r.s, 0, distance)
    modifies r`s, r`n
    ensures r.n == old(r.n) + 1 && Counted(r.s, r.pace.Delay(old(r.n)), distance)
    ensures r.s.t == high % TURNS * WRAP + Low(old(r.s.t) + r.pace.Delay(old(r.n)))
    ensures r.s == old(r.s).(t := r.s.t, pending := r.s.pending)
  {
    ghost var d := r.pace.Delay(r.n);
    ghost var moved := Step(r.s, Tick(d));
    StaysCounted(r.s, moved, 0, d, distance);
    r.Write(WriteTime1(high));
    DistanceOfLow(r.s.t, moved.t, r.s.alarm);
  }

  // ---------------------------------------------------------------- what a caller can rely on

  /** An old alarm farther ahead than the set-up takes, and than the time from TIME_0 to ALARM_0, spoils nothing. */
  lemma {:induction false} FarAlarmSpoilsNothing(s: Timer, pace: Pace, n: nat, k: nat, low: U32)
    requires Distance(s.t, s.alarm) > (2 + k) * pace.gap && Distance(low, s.alarm) > pace.gap
    ensures !OldAlarmReached(s, pace, n, k) && !Spoilt(s, pace, n, k, low)
  {
    LapseAtMost(pace, n, 2 + k);
    LapseSplits(pace, n, 2, k);
    DistanceShrinks(s.t, pace.Lapse(n, 2), s.alarm);
  }

  lemma {:induction false} LapseAtMost(pace: Pace, k: nat, count: nat)
    ensures pace.Lapse(k, count) <= count * pace.gap
  {
    if count > 0 {
      LapseAtMost(pace, k, count - 1);
      assert count * pace.gap == (count - 1) * pace.gap + pace.gap;
    }
  }

  /** A steady pace and an old alarm that do spoil every one of the tests. */
  lemma {:induction false} OldAlarmSpoils(low: U32)
    ensures var s, pace := Timer(0, 0x60, false, false, 0), Pace(0x20, _ => 0x20);
            Spoilt(s, pace, 0, 1, low) && Spoilt(s, pace, 0, 2, low) && OldAlarmReached(s, pace, 0, 2)
  {
    var pace := Pace(0x20, _ => 0x20);
    ShortLapses(pace, 0);
    ShortLapses(pace, 2);
    assert Distance(0x40, 0x60) == 0x20;
  }

  // ---------------------------------------------------------------- waiting

  /** TIME_0 has reached `bound` i accesses after the count `from`. */
  predicate Reaches(from: nat, pace: Pace, k: nat, bound: U32, i: nat) { Low(from + pace.Lapse(k, i)) >= bound }

  /** `turns` reads of TIME_0, the last of which is the first to reach `bound`, if `finished`. */
  ghost predicate WaitedFor(from: nat, pace: Pace, k: nat, bound: U32, turns: nat, finished: bool) {
    && (forall i: nat :: 0 < i < turns ==> !Reaches(from, pace, k, bound, i))
    && (finished ==> turns > 0 && Reaches(from, pace, k, bound, turns))
    && (!finished && turns > 0 ==> !Reaches(from, pace, k, bound, turns))
  }

  /** Reads TIME_0 until it is at least `bound`, at most `polls` times. */
  method WaitUntil(r: Registers, bound: U32, polls: nat) returns (finished: bool, turns: nat)
    modifies r`s, r`n
    ensures r.n == old(r.n) + turns && turns <= polls && (!finished ==> turns == polls)
    ensures Passed(old(r.s), r.s, r.pace, old(r.n), turns)
    ensures WaitedFor(old(r.s.t), r.pace, old(r.n), bound, turns, finished)
  {
    finished, turns := false, 0;
    PassedNone(r.s, r.pace, r.n);
    while !finished && turns < polls
      invariant r.n == old(r.n) + turns && turns <= polls
      invariant Passed(old(r.s), r.s, r.pace, old(r.n), turns)
      invariant WaitedFor(old(r.s.t), r.pace, old(r.n), bound, turns, finished)
      decreases polls - turns, !finished
    {
      ghost var before := r.s;
      NextTime(old(r.s), before, r.pace, old(r.n), turns);
      var now := r.ReadTime0();
      PassedNext(old(r.s), before, r.s, r.pace, old(r.n), turns);
      turns := turns + 1;
      finished := now >= bound;
    }
  }

  /** Once TIME_0 has reached `bound`, an alarm up to that has been reached if it was still ahead. */
  lemma {:induction false} ReachedAlarm(x: nat, lapse: nat, alarm: U32, bound: U32)
    requires x < alarm <= bound && Low(x + lapse) >= bound
    ensures Distance(x, alarm) == alarm - x && lapse >= alarm - x
  {
  }

  // ---------------------------------------------------------------- acknowledging

  /**
    Write-1-to-clear.  Once the wait is over, the flag read before and after a write of 0 is up if and only
    if the alarm has been reached since it was written, or was spoilt; read after a write of 1 it is up if
    and only if the alarm is reached again in between.  If ALARM_0 was written before its time, the test
    passes exactly if that last read comes before the next turn.
   */
  method InterruptAcknowledge(r: Registers, polls: nat)
    returns (finished: bool, p1: U32, p2: U32, p3: U32, pass: bool, turns: nat)
    modifies r`s, r`n
    ensures r.s.fired == old(r.s.fired) && r.n == old(r.n) + 4 + turns + if finished then 5 else 0
    ensures turns <= polls && (!finished ==> turns == polls)
    ensures WaitedFor(0x1000 + r.pace.Delay(old(r.n) + 3), r.pace, old(r.n) + 4, 0x20_0000, turns, finished)
    ensures finished ==>
      var up, reach := Spoilt(old(r.s), r.pace, old(r.n), 1, 0x1000),
                       Distance(0x1000 + r.pace.Delay(old(r.n) + 3), 0x10_0000);
      && (p1 % 2 == 1 <==> up || r.pace.Lapse(old(r.n) + 4, turns + 1) >= reach)
      && (p2 % 2 == 1 <==> up || r.pace.Lapse(old(r.n) + 4, turns + 3) >= reach)
      && (p3 % 2 == 1 <==> ReachedAgain(0x1000 + r.pace.Delay(old(r.n) + 3), r.pace, old(r.n) + 4, turns, 0x10_0000))
    ensures pass <==> finished && p1 % 2 == 1 && p2 % 2 == 1 && p3 % 2 == 0
    ensures finished && r.pace.Delay(old(r.n) + 3) < 0xF_F000 ==>
      (pass <==> !ReachedAgain(0x1000 + r.pace.Delay(old(r.n) + 3), r.pace, old(r.n) + 4, turns, 0x10_0000))
  {
    SetUp(r, 0x1000, 0x10_0000);
    finished, p1, p2, p3, turns := WaitAndAcknowledge(r, polls);
    pass := finished && p1 % 2 == 1 && p2 % 2 == 1 && p3 % 2 == 0;
  }

  /** The test from the write to ALARM_0 on, which is the access before. */
  method WaitAndAcknowledge(r: Registers, polls: nat)
    returns (finished: bool, p1: U32, p2: U32, p3: U32, turns: nat)
    requires r.s.alarm == 0x10_0000 && r.n > 0 && LowLike(r.s, 0x1000 + r.pace.Delay(r.n - 1))
    modifies r`s, r`n
    ensures r.s.fired == old(r.s.fired) && r.n == old(r.n) + turns + if finished then 5 else 0
    ensures turns <= polls && (!finished ==> turns == polls)
    ensures WaitedFor(0x1000 + r.pace.Delay(old(r.n) - 1), r.pace, old(r.n), 0x20_0000, turns, finished)
    ensures finished ==>
      var up, reach := old(r.s.pending), Distance(old(r.s.t), 0x10_0000);
      && (p1 % 2 == 1 <==> up || r.pace.Lapse(old(r.n), turns + 1) >= reach)
      && (p2 % 2 == 1 <==> up || r.pace.Lapse(old(r.n), turns + 3) >= reach)
      && (p3 % 2 == 1 <==> ReachedAgain(0x1000 + r.pace.Delay(old(r.n) - 1), r.pace, old(r.n), turns, 0x10_0000))
      && (r.pace.Delay(old(r.n) - 1) < 0xF_F000 ==> p1 % 2 == 1 && p2 % 2 == 1)
  {
    ghost var written, k, x := r.s, r.n, 0x1000 + r.pace.Delay(r.n - 1);
    finished, turns := WaitUntil(r, 0x20_0000, polls);
    WaitShifts(written.t, x, r.pace, k, 0x20_0000, turns, finished);
    FlagAfter(written, r.s, r.pace, k, turns);
    p1, p2, p3 := 0, 0, 0;
    if finished {
      if x < 0x10_0000 { ReachedInTime(x, r.pace, k, turns, 0x10_0000, 0x20_0000); }
      p1, p2, p3 := AcknowledgeTwice(r, written, k, turns);
      AgainInLow(written.t, x, r.pace, k, turns, 0x10_0000);
    }
  }

  /** From the write of 1, four accesses after the wait, to the read after it the alarm is reached. */
  predicate ReachedAgain(from: nat, pace: Pace, k: nat, turns: nat, alarm: U32) {
    pace.Delay(k + turns + 4) >= Distance(from + pace.Lapse(k, turns + 4), alarm)
  }

  lemma {:induction false} AgainInLow(t: nat, u: nat, pace: Pace, k: nat, turns: nat, alarm: U32)
    requires Low(t) == Low(u)
    ensures ReachedAgain(t, pace, k, turns, alarm) <==> ReachedAgain(u, pace, k, turns, alarm)
  {
    SameLow(t, u, pace.Lapse(k, turns + 4));
    DistanceOfLow(t + pace.Lapse(k, turns + 4), u + pace.Lapse(k, turns + 4), alarm);
  }

  /** Waiting depends on low halves only. */
  lemma {:induction false} WaitShifts(t: nat, u: nat, pace: Pace, k: nat, bound: U32, turns: nat, finished: bool)
    requires Low(t) == Low(u) && WaitedFor(t, pace, k, bound, turns, finished)
    ensures WaitedFor(u, pace, k, bound, turns, finished)
  {
    forall i: nat ensures Reaches(t, pace, k, bound, i) <==> Reaches(u, pace, k, bound, i) {
      LowAdds(t, pace.Lapse(k, i));
      LowAdds(u, pace.Lapse(k, i));
    }
  }

  /** The alarm, still ahead of x when the wait begins, is reached by its end. */
  lemma {:induction false} ReachedInTime(x: nat, pace: Pace, k: nat, turns: nat, alarm: U32, bound: U32)
    requires x < alarm <= bound && Reaches(x, pace, k, bound, turns)
    ensures Distance(x, alarm) == alarm - x <= pace.Lapse(k, turns + 1) <= pace.Lapse(k, turns + 3)
  {
    ReachedAlarm(x, pace.Lapse(k, turns), alarm, bound);
    LapseGrows(pace, k, turns, turns + 1);
    LapseGrows(pace, k, turns + 1, turns + 3);
  }

  /** Reads INTR_0, writes 0, reads, writes 1 and reads. */
  method AcknowledgeTwice(r: Registers, ghost written: Timer, ghost k: nat, ghost turns: nat)
    returns (p1: U32, p2: U32, p3: U32)
    requires Passed(written, r.s, r.pace, k, turns) && r.n == k + turns
    modifies r`s, r`n
    ensures r.n == old(r.n) + 5 && r.s.fired == written.fired
    ensures p1 % 2 == 1 <==> written.pending || r.pace.Lapse(k, turns + 1) >= Distance(written.t, written.alarm)
    ensures p2 % 2 == 1 <==> written.pending || r.pace.Lapse(k, turns + 3) >= Distance(written.t, written.alarm)
    ensures p3 % 2 == 1 <==> ReachedAgain(written.t, r.pace, k, turns, written.alarm)
  {
    p1, p2 := ReadKeepRead(r, written, k, turns);
    p3 := ClearAndRead(r);
  }

  method ReadKeepRead(r: Registers, ghost written: Timer, ghost k: nat, ghost turns: nat) returns (p1: U32, p2: U32)
    requires Passed(written, r.s, r.pace, k, turns) && r.n == k + turns
    modifies r`s, r`n
    ensures r.n == old(r.n) + 3 && r.s.fired == written.fired && r.s.alarm == written.alarm
    ensures r.s.t + r.pace.Delay(r.n) == written.t + r.pace.Lapse(k, turns + 4)
    ensures p1 % 2 == 1 <==> written.pending || r.pace.Lapse(k, turns + 1) >= Distance(written.t, written.alarm)
    ensures p2 % 2 == 1 <==> written.pending || r.pace.Lapse(k, turns + 3) >= Distance(written.t, written.alarm)
  {
    p1 := ReadAfter(r, written, k, turns);
    p2 := KeepAndRead(r, written, k, turns + 1);
    NextTime(written, r.s, r.pace, k, turns + 3);
  }

  /** Reads INTR_0 as the access after `m`. */
  method ReadAfter(r: Registers, ghost written: Timer, ghost k: nat, ghost m: nat) returns (p: U32)
    requires Passed(written, r.s, r.pace, k, m) && r.n == k + m
    modifies r`s, r`n
    ensures r.n == old(r.n) + 1 && Passed(written, r.s, r.pace, k, m + 1)
    ensures r.s.fired == written.fired && r.s.alarm == written.alarm
    ensures p % 2 == 1 <==> written.pending || r.pace.Lapse(k, m + 1) >= Distance(written.t, written.alarm)
  {
    ghost var before := r.s;
    p := r.ReadIntr();
    PassedNext(written, before, r.s, r.pace, k, m);
    FlagAfter(written, r.s, r.pace, k, m + 1);
  }

  /** Writes 0 to INTR_0 and reads it. */
  method KeepAndRead(r: Registers, ghost written: Timer, ghost k: nat, ghost m: nat) returns (p: U32)
    requires Passed(written, r.s, r.pace, k, m) && r.n == k + m
    modifies r`s, r`n
    ensures r.n == old(r.n) + 2 && Passed(written, r.s, r.pace, k, m + 2)
    ensures r.s.fired == written.fired && r.s.alarm == written.alarm
    ensures p % 2 == 1 <==> written.pending || r.pace.Lapse(k, m + 2) >= Distance(written.t, written.alarm)
  {
    ghost var before := r.s;
    r.Write(WriteIntr(0));
    PassedNext(written, before, r.s, r.pace, k, m);
    p := ReadAfter(r, written, k, m + 1);
  }

  lemma {:induction false} FlagAfter(a: Timer, b: Timer, pace: Pace, k: nat, m: nat)
    requires Passed(a, b, pace, k, m)
    ensures b.pending <==> a.pending || pace.Lapse(k, m) >= Distance(a.t, a.alarm)
    ensures b.alarm == a.alarm && b.fired == a.fired && b.enabled == a.enabled
  {
    PassedIff(a, b, pace, k, m);
    CrossesWhenReached(a.t, pace.Lapse(k, m), a.alarm);
  }

  /** Writes 1 to INTR_0 and turns it. */
  method ClearAndRead(r: Registers) returns (p: U32)
    modifies r`s, r`n
    ensures r.n == old(r.n) + 2 && r.s.fired == old(r.s.fired) && r.s.alarm == old(r.s.alarm)
    ensures p % 2 == 1 <==>
      r.pace.Delay(old(r.n) + 1) >= Distance(old(r.s.t) + r.pace.Delay(old(r.n)), old(r.s.alarm))
  {
    r.Write(WriteIntr(1));
    CrossesWhenReached(r.s.t, r.pace.Delay(r.n), r.s.alarm);
    p := r.ReadIntr();
  }

  // ---------------------------------------------------------------- masking

  /**
    An alarm that is disabled in flight latches without firing, and fires when it is enabled again.  Nothing
    fires early if and only if the flag was not spoilt and interrupts were disabled before the alarm was
    reached; then the flag is up after the wait exactly if it has been reached, however long the sleep is.
    If ALARM_0 was written before its time, the test passes exactly if the flag was not spoilt and
    interrupts were disabled before that time, too.
   */
  method InterruptMasking(r: Registers, polls: nat, slept: nat)
    returns (finished: bool, early: nat, pendingMasked: U32, firings: nat, pass: bool, turns: nat)
    modifies r`s, r`n
    ensures !r.s.enabled && firings == r.s.fired - old(r.s.fired)
    ensures turns <= polls && (!finished ==> turns == polls)
    ensures WaitedFor(0x1000 + r.pace.Lapse(old(r.n) + 4, 3), r.pace, old(r.n) + 7, 0x3_0000, turns, finished)
    ensures var reach := Distance(0x1000 + r.pace.Delay(old(r.n) + 4), 0x2_0000);
            && (early == 0 <==>
                  !Spoilt(old(r.s), r.pace, old(r.n), 2, 0x1000) && r.pace.Lapse(old(r.n) + 5, 2) < reach)
            && (finished && early == 0 ==>
                  (pendingMasked % 2 == 1 <==> r.pace.Lapse(old(r.n) + 5, turns + 3) >= reach))
    ensures finished && pendingMasked % 2 == 1 ==> firings > early
    ensures pass <==> finished && early == 0 && pendingMasked % 2 == 1 && firings > 0
    ensures finished && r.pace.Delay(old(r.n) + 4) < 0x1_F000 ==>
      (pass <==> !Spoilt(old(r.s), r.pace, old(r.n), 2, 0x1000) && r.pace.Lapse(old(r.n) + 4, 3) < 0x1_F000)
  {
    SetUpTurn(r, 1, 0x1000, 0x2_0000);
    finished, early, pendingMasked, firings, pass, turns := DisableInFlight(r, polls, slept);
  }

  /** The test from the write to ALARM_0 on, which is the access before. */
  method DisableInFlight(r: Registers, polls: nat, slept: nat)
    returns (finished: bool, early: nat, pendingMasked: U32, firings: nat, pass: bool, turns: nat)
    requires !r.s.enabled && r.s.alarm == 0x2_0000 && r.n > 0 && LowLike(r.s, 0x1000 + r.pace.Delay(r.n - 1))
    modifies r`s, r`n
    ensures !r.s.enabled && firings == r.s.fired - old(r.s.fired)
    ensures turns <= polls && (!finished ==> turns == polls)
    ensures WaitedFor(0x1000 + r.pace.Lapse(old(r.n) - 1, 3), r.pace, old(r.n) + 2, 0x3_0000, turns, finished)
    ensures var reach := Distance(old(r.s.t), old(r.s.alarm));
            && (early == 0 <==> !old(r.s.pending) && r.pace.Lapse(old(r.n), 2) < reach)
            && (finished && early == 0 ==>
                  (pendingMasked % 2 == 1 <==> r.pace.Lapse(old(r.n), turns + 3) >= reach))
            && (finished && r.pace.Delay(old(r.n) - 1) < 0x1_F000 ==> MaskedInTime(r.pace, old(r.n), turns, reach))
    ensures finished && pendingMasked % 2 == 1 ==> firings > early
    ensures pass <==> finished && early == 0 && pendingMasked % 2 == 1 && firings > 0
  {
    ghost var written, k := r.s, r.n;
    var before := r.s.fired;
    EnableBriefly(r);
    ghost var masked := r.s;
    finished, turns := WaitUntil(r, 0x3_0000, polls);
    MaskedWait(written, masked, r.pace, k, turns, finished);
    FlagAfter(masked, r.s, r.pace, k + 2, turns);
    early := r.s.fired - before;
    pendingMasked := 0;
    if finished {
      pendingMasked := ReadFlag(r, masked, k + 2, turns);
      if pendingMasked % 2 != 0 { r.Unmask(slept); }
    }
    firings := r.s.fired - before;
    pass := finished && early == 0 && pendingMasked % 2 != 0 && firings > 0;
  }

  /** Enables interrupts and disables them at once. */
  method EnableBriefly(r: Registers)
    modifies r`s, r`n
    ensures r.n == old(r.n) + 2 && r.s.alarm == old(r.s.alarm) && !r.s.enabled && !r.s.pending
    ensures r.s.t == old(r.s.t) + r.pace.Lapse(old(r.n), 2) && r.s.fired >= old(r.s.fired)
    ensures r.s.fired == old(r.s.fired) <==>
      !old(r.s.pending) && r.pace.Lapse(old(r.n), 2) < Distance(old(r.s.t), old(r.s.alarm))
  {
    ghost var d, e := r.pace.Delay(r.n), r.pace.Delay(r.n + 1);
    ShortLapses(r.pace, r.n);
    EpochGrows(r.s.t, r.s.t + d, r.s.alarm);
    EpochGrows(r.s.t + d, r.s.t + d + e, r.s.alarm);
    CrossesWhenReached(r.s.t, d + e, r.s.alarm);
    r.Unmask(0);
  }

  /** Reads INTR_0 after a wait from `masked` on. */
  method ReadFlag(r: Registers, ghost masked: Timer, ghost k: nat, ghost turns: nat) returns (v: U32)
    requires Passed(masked, r.s, r.pace, k, turns) && r.n == k + turns && !masked.pending
    modifies r`s, r`n
    ensures r.n == old(r.n) + 1 && r.s.fired == masked.fired && r.s.alarm == masked.alarm
    ensures r.s.enabled == masked.enabled && (v % 2 == 1 <==> r.s.pending)
    ensures v % 2 == 1 <==> r.pace.Lapse(k, turns + 1) >= Distance(masked.t, masked.alarm)
  {
    ghost var before := r.s;
    v := r.ReadIntr();
    PassedNext(masked, before, r.s, r.pace, k, turns);
    FlagAfter(masked, r.s, r.pace, k, turns + 1);
  }

  /** The wait, seen from the write of ALARM_0, d counts after TIME_0, and from the disabling after that. */
  lemma {:induction false} MaskedWait(written: Timer, masked: Timer, pace: Pace, k: nat, turns: nat, finished: bool)
    requires k > 0 && LowLike(written, 0x1000 + pace.Delay(k - 1))
    requires written.alarm == masked.alarm == 0x2_0000 && masked.t == written.t + pace.Lapse(k, 2)
    requires WaitedFor(masked.t, pace, k + 2, 0x3_0000, turns, finished)
    ensures WaitedFor(0x1000 + pace.Lapse(k - 1, 3), pace, k + 2, 0x3_0000, turns, finished)
    ensures pace.Lapse(k, 2) < Distance(written.t, written.alarm) ==>
      (pace.Lapse(k, turns + 3) >= Distance(written.t, written.alarm) <==>
       pace.Lapse(k + 2, turns + 1) >= Distance(masked.t, masked.alarm))
    ensures finished && pace.Delay(k - 1) < 0x1_F000 ==>
      MaskedInTime(pace, k, turns, Distance(written.t, written.alarm))
  {
    var off, x := pace.Lapse(k, 2), 0x1000 + pace.Lapse(k - 1, 3);
    SplitMasked(pace, k, turns);
    SameLow(written.t, 0x1000 + pace.Delay(k - 1), off);
    WaitShifts(masked.t, x, pace, k + 2, 0x3_0000, turns, finished);
    if off < Distance(written.t, written.alarm) { DistanceShrinks(written.t, off, written.alarm); }
    if finished && pace.Delay(k - 1) < 0x1_F000 { InTime(pace, k, turns); }
  }

  lemma {:induction false} SplitMasked(pace: Pace, k: nat, turns: nat)
    requires k > 0
    ensures pace.Lapse(k - 1, 3) == pace.Delay(k - 1) + pace.Lapse(k, 2)
    ensures pace.Lapse(k, turns + 3) == pace.Lapse(k, 2) + pace.Lapse(k + 2, turns + 1)
  {
    ShortLapses(pace, k - 1);
    ShortLapses(pace, k);
    LapseSplits(pace, k, 2, turns + 1);
  }

  lemma {:induction false} SameLow(t: nat, u: nat, d: nat)
    requires Low(t) == Low(u)
    ensures Low(t + d) == Low(u + d)
  {
    LowAdds(t, d);
    LowAdds(u, d);
  }

  /** With ALARM_0 written in time, disabling in time decides, and the alarm is reached by the end of the wait. */
  ghost predicate MaskedInTime(pace: Pace, k: nat, turns: nat, reach: nat)
    requires k > 0
  {
    && (pace.Lapse(k, 2) < reach <==> pace.Lapse(k - 1, 3) < 0x1_F000)
    && (pace.Lapse(k, 2) < reach ==> pace.Lapse(k, turns + 3) >= reach)
  }

  lemma {:induction false} InTime(pace: Pace, k: nat, turns: nat)
    requires k > 0 && pace.Delay(k - 1) < 0x1_F000
    requires Reaches(0x1000 + pace.Lapse(k - 1, 3), pace, k + 2, 0x3_0000, turns)
    ensures MaskedInTime(pace, k, turns, Distance(0x1000 + pace.Delay(k - 1), 0x2_0000))
  {
    SplitMasked(pace, k, turns);
    AheadOf(0x1000 + pace.Delay(k - 1), 0x2_0000);
    if 0x1000 + pace.Lapse(k - 1, 3) < 0x2_0000 {
      ReachedInTime(0x1000 + pace.Lapse(k - 1, 3), pace, k + 2, turns, 0x2_0000, 0x3_0000);
    }
  }

  lemma {:induction false} AheadOf(x: nat, alarm: U32)
    requires x < alarm
    ensures Distance(x, alarm) == alarm - x
  {
  }

  // ---------------------------------------------------------------- an alarm in the past

  /** Interrupts are enabled and serviced: something has fired since `before` exactly if the alarm has been reached. */
  ghost predicate Firing(s: Timer, before: nat, up: bool, since: nat) {
    && s.enabled && !s.pending && since <= s.t && s.fired >= before
    && (s.fired > before <==> up || Crosses(since, s.t, s.alarm))
  }

  /** Time passes, and an interrupt is serviced. */
  method Idle(r: Registers, ghost before: nat, ghost up: bool, ghost since: nat)
    requires Firing(r.s, before, up, since)
    modifies r`s, r`n
    ensures r.n == old(r.n) + 1 && Firing(r.s, before, up, since)
    ensures r.s.t == old(r.s.t) + r.pace.Delay(old(r.n)) && r.s.alarm == old(r.s.alarm)
  {
    EpochGrows(since, r.s.t, r.s.alarm);
    EpochGrows(r.s.t, r.s.t + r.pace.Delay(r.n), r.s.alarm);
    r.Pass();
    r.Service();
  }

  /** The wait with interrupts enabled, until something fires or the time is up. */
  method WaitEnabled(r: Registers, polls: nat, before: nat, ghost up: bool, ghost since: nat)
    requires Firing(r.s, before, up, since)
    modifies r`s, r`n
    ensures old(r.n) <= r.n <= old(r.n) + polls && (r.s.fired == before ==> r.n == old(r.n) + polls)
    ensures Firing(r.s, before, up, since) && r.s.alarm == old(r.s.alarm)
    ensures r.s.t == old(r.s.t) + r.pace.Lapse(old(r.n), r.n - old(r.n))
  {
    var left := polls;
    while r.s.fired == before && left > 0
      invariant 0 <= left <= polls && r.n == old(r.n) + (polls - left)
      invariant Firing(r.s, before, up, since) && r.s.alarm == old(r.s.alarm)
      invariant r.s.t == old(r.s.t) + r.pace.Lapse(old(r.n), r.n - old(r.n))
      decreases left
    {
      Idle(r, before, up, since);
      left := left - 1;
    }
  }

  /** INTR_0 as it reads. */
  function Intr(s: Timer): U32 { if s.pending then 1 else 0 }

  /** Reads INTR_0 and disables interrupts, which are serviced until then. */
  method ReadAndDisable(r: Registers, ghost before: nat, ghost up: bool, ghost since: nat) returns (intr: U32)
    requires Firing(r.s, before, up, since)
    modifies r`s, r`n
    ensures r.n == old(r.n) + 2 && r.s.t == old(r.s.t) + r.pace.Lapse(old(r.n), 2)
    ensures intr % 2 == 0 && !r.s.enabled && r.s.alarm == old(r.s.alarm)
    ensures r.s.fired >= before && (r.s.fired > before <==> up || Crosses(since, r.s.t, r.s.alarm))
  {
    ShortLapses(r.pace, r.n);
    Idle(r, before, up, since);
    intr := Intr(r.s);
    Idle(r, before, up, since);
    r.s := Step(r.s, WriteEnable(0));
  }

  /** Reads INTR_0 and enables interrupts; a flag that is up fires at once. */
  method EnableLater(r: Registers)
    requires !r.s.enabled
    modifies r`s, r`n
    ensures r.n == old(r.n) + 2 && r.s.t == old(r.s.t) + r.pace.Lapse(old(r.n), 2) && r.s.alarm == old(r.s.alarm)
    ensures Firing(r.s, old(r.s.fired), old(r.s.pending), old(r.s.t))
  {
    ShortLapses(r.pace, r.n);
    var intrBefore := r.ReadIntr();
    ghost var seen := r.s;
    r.Pass();
    TicksAdd(old(r.s), seen, r.s);
    r.s := Step(r.s, WriteEnable(1));
    r.Service();
  }

  /**
    An alarm 0x10000000 below the time waits 0xF0000000 counts.  The test passes, nothing having fired,
    exactly if the flag was not spoilt and interrupts are disabled again before the alarm is reached: within
    0xF0000000 counts of the write to TIME_0, if ALARM_0 was written by then.
   */
  method AlarmSetInThePast(r: Registers, polls: nat) returns (pass: bool)
    modifies r`s, r`n
    ensures pass <==> r.s.fired == old(r.s.fired)
    ensures !r.s.enabled && r.s.alarm == 0x1000_0000
    ensures pass <==>
      && !Spoilt(old(r.s), r.pace, old(r.n), 2, 0x2000_0000)
      && r.pace.Lapse(old(r.n) + 5, polls + 4) < Distance(0x2000_0000 + r.pace.Delay(old(r.n) + 4), 0x1000_0000)
    ensures r.pace.Delay(old(r.n) + 4) < 0xF000_0000 ==>
      (pass <==> !Spoilt(old(r.s), r.pace, old(r.n), 2, 0x2000_0000)
                 && r.pace.Lapse(old(r.n) + 4, polls + 5) < 0xF000_0000)
  {
    var before := r.s.fired;
    SetUpTurn(r, 1, 0x2000_0000, 0x1000_0000);
    ghost var k, d := r.n, r.pace.Delay(old(r.n) + 4);
    pass := NothingFires(r, polls);
    PastAlarm(r.pace, k, d, polls);
  }

  /** The test from the write to ALARM_0 on. */
  method NothingFires(r: Registers, polls: nat) returns (pass: bool)
    requires !r.s.enabled
    modifies r`s, r`n
    ensures pass <==> r.s.fired == old(r.s.fired)
    ensures !r.s.enabled && r.s.alarm == old(r.s.alarm)
    ensures pass <==>
      !old(r.s.pending) && r.pace.Lapse(old(r.n), polls + 4) < Distance(old(r.s.t), old(r.s.alarm))
  {
    ghost var written, k := r.s, r.n;
    var before := r.s.fired;
    EnableAndWait(r, polls);
    ghost var waited := r.n - k;
    var intrAfter := ReadAndDisable(r, before, written.pending, written.t);
    pass := r.s.fired == before && intrAfter % 2 == 0;
    WholeWait(written, r.s.t, r.pace, k, waited, polls);
  }

  method EnableAndWait(r: Registers, polls: nat)
    requires !r.s.enabled
    modifies r`s, r`n
    ensures old(r.n) + 2 <= r.n <= old(r.n) + polls + 2
    ensures r.s.fired == old(r.s.fired) ==> r.n == old(r.n) + polls + 2
    ensures Firing(r.s, old(r.s.fired), old(r.s.pending), old(r.s.t)) && r.s.alarm == old(r.s.alarm)
    ensures r.s.t == old(r.s.t) + r.pace.Lapse(old(r.n), r.n - old(r.n))
  {
    ghost var written, k := r.s, r.n;
    var before := r.s.fired;
    EnableLater(r);
    WaitEnabled(r, polls, before, written.pending, written.t);
    LapseSplits(r.pace, k, 2, r.n - k - 2);
  }

  /** At t the wait is over and interrupts are disabled; a wait that ends early is the shorter one. */
  lemma {:induction false} WholeWait(written: Timer, t: nat, pace: Pace, k: nat, waited: nat, polls: nat)
    requires waited <= polls + 2 && t == written.t + pace.Lapse(k, waited) + pace.Lapse(k + waited, 2)
    ensures pace.Lapse(k, polls + 4) < Distance(written.t, written.alarm) ==> !Crosses(written.t, t, written.alarm)
    ensures waited == polls + 2 && !Crosses(written.t, t, written.alarm) ==>
      pace.Lapse(k, polls + 4) < Distance(written.t, written.alarm)
  {
    LapseSplits(pace, k, waited, 2);
    LapseGrows(pace, k, waited + 2, polls + 4);
    CrossesWhenReached(written.t, pace.Lapse(k, waited + 2), written.alarm);
  }

  lemma {:induction false} PastAlarm(pace: Pace, k: nat, d: nat, polls: nat)
    requires k > 0 && d == pace.Delay(k - 1)
    ensures d < 0xF000_0000 ==>
      (pace.Lapse(k, polls + 4) < Distance(0x2000_0000 + d, 0x1000_0000) <==>
       pace.Lapse(k - 1, polls + 5) < 0xF000_0000)
  {
    ShortLapses(pace, k - 1);
    LapseSplits(pace, k - 1, 1, polls + 4);
  }

  // ---------------------------------------------------------------- rollover

  /** A firing that is due at the count `from`, and the passings of 0x2000 in the wait after it, are two. */
  predicate CapturesTwo(due: bool, from: nat, wait: nat) {
    (if due then 1 else 0) + Epoch(from + wait, 0x2000) - Epoch(from, 0x2000) == 2
  }

  /**
    The rollover test, an interrupt that is due when they are enabled being serviced at once.  It passes
    exactly if what is due then and the passings of the alarm during the wait are two; if interrupts are
    enabled before the alarm's time, exactly if the wait ends in the stated range.
   */
  method AlarmRolloverAndPeriodicity(r: Registers, ticks: seq<nat>, buffer: CaptureBuffer) returns (pass: bool)
    requires buffer.Valid() && buffer.Held() == []
    requires forall i :: 0 <= i < |ticks| ==> ticks[i] <= WRAP
    modifies r`s, r`n, buffer, buffer.data
    ensures pass <==> r.s.fired == old(r.s.fired) + 2
    ensures var up := Spoilt(old(r.s), r.pace, old(r.n), 2, 0xFE00_0000);
            var from := 0xFE00_0000 + r.pace.Lapse(old(r.n) + 4, 2);
            var due := up || r.pace.Delay(old(r.n) + 5) >= Distance(0xFE00_0000 + r.pace.Delay(old(r.n) + 4), 0x2000);
            pass <==> CapturesTwo(due, from, Total(ticks))
    ensures r.pace.Lapse(old(r.n) + 4, 2) < 0x0200_2000 ==>
      var first := 0x0200_2000 + if Spoilt(old(r.s), r.pace, old(r.n), 2, 0xFE00_0000) then 0 else WRAP;
      pass <==> first <= r.pace.Lapse(old(r.n) + 4, 2) + Total(ticks) < first + WRAP
  {
    SetUpTurn(r, 2, 0xFE00_0000, 0x2000);
    ghost var due := r.s.pending || r.pace.Delay(r.n) >= Distance(r.s.t, 0x2000);
    if r.pace.Lapse(r.n - 1, 2) < 0x0200_2000 { RolloverInTime(r.pace, r.n, r.s.pending, due, Total(ticks)); }
    pass := EnableAndCapture(r, ticks, buffer);
  }

  /** The test from the write to ALARM_0 on, which is the access before. */
  method EnableAndCapture(r: Registers, ticks: seq<nat>, buffer: CaptureBuffer) returns (pass: bool)
    requires r.s.alarm == 0x2000 && r.n > 0 && LowLike(r.s, 0xFE00_0000 + r.pace.Delay(r.n - 1))
    requires buffer.Valid() && buffer.Held() == []
    requires forall i :: 0 <= i < |ticks| ==> ticks[i] <= WRAP
    modifies r`s, r`n, buffer, buffer.data
    ensures pass <==> r.s.fired == old(r.s.fired) + 2
    ensures var from := 0xFE00_0000 + r.pace.Lapse(old(r.n) - 1, 2);
            var due := old(r.s.pending) || r.pace.Delay(old(r.n)) >= Distance(old(r.s.t), 0x2000);
            pass <==> CapturesTwo(due, from, Total(ticks))
  {
    ghost var due := r.s.pending || r.pace.Delay(r.n) >= Distance(r.s.t, 0x2000);
    RolloverInLow(r.s, r.pace, r.n, due, Total(ticks));
    CrossesWhenReached(r.s.t, r.pace.Delay(r.n), r.s.alarm);
    r.Write(WriteEnable(1));
    pass := CapturesTwice(r, ticks, buffer);
  }

  /** The wait, from the enabling on. */
  method CapturesTwice(r: Registers, ticks: seq<nat>, buffer: CaptureBuffer) returns (pass: bool)
    requires r.s.enabled && r.s.alarm == 0x2000 && buffer.Valid() && buffer.Held() == []
    requires forall i :: 0 <= i < |ticks| ==> ticks[i] <= WRAP
    modifies r`s, r`n, buffer, buffer.data
    ensures pass <==> r.s.fired == old(r.s.fired) + 2
    ensures pass <==> CapturesTwo(old(r.s.pending), old(r.s.t), Total(ticks))
  {
    FiringsAfter(r.s, ticks);
    FiringsAreCounted(r.s, [0] + ticks);
    r.s := WaitServiced(r.s, [0] + ticks, buffer);
    r.Write(WriteEnable(0));
    pass := buffer.count == 2;
  }

  /** The passings from 0xFE000000 on, by low halves. */
  lemma {:induction false} RolloverInLow(written: Timer, pace: Pace, k: nat, due: bool, wait: nat)
    requires k > 0 && LowLike(written, 0xFE00_0000 + pace.Delay(k - 1))
    ensures CapturesTwo(due, written.t + pace.Delay(k), wait) <==>
            CapturesTwo(due, 0xFE00_0000 + pace.Lapse(k - 1, 2), wait)
  {
    ShortLapses(pace, k - 1);
    SameLow(written.t, 0xFE00_0000 + pace.Delay(k - 1), pace.Delay(k));
    EpochShifts(written.t + pace.Delay(k), 0xFE00_0000 + pace.Lapse(k - 1, 2), wait, 0x2000);
  }

  /** ... when interrupts are enabled before the alarm's time. */
  lemma {:induction false} RolloverInTime(pace: Pace, k: nat, up: bool, due: bool, wait: nat)
    requires k > 0 && pace.Lapse(k - 1, 2) < 0x0200_2000
    requires due <==> up || pace.Delay(k) >= Distance(0xFE00_0000 + pace.Delay(k - 1), 0x2000)
    ensures var d, first := pace.Lapse(k - 1, 2), 0x0200_2000 + if up then 0 else WRAP;
            CapturesTwo(due, 0xFE00_0000 + d, wait) <==> first <= d + wait < first + WRAP
  {
    ShortLapses(pace, k - 1);
    AlarmAfterTurn(pace.Delay(k - 1));
    var d := pace.Lapse(k - 1, 2);
    RolloverPasses(0xFE00_0000, 0xFE00_0000 + d, 0xFE00_0000 + d + wait);
  }

  lemma {:induction false} AlarmAfterTurn(d: nat)
    requires d < 0x0200_2000
    ensures Distance(0xFE00_0000 + d, 0x2000) == 0x0200_2000 - d
  {
  }

  /** How often an alarm is passed depends on low halves only. */
  lemma {:induction false} EpochShifts(t: nat, u: nat, wait: nat, alarm: nat)
    requires Low(t) == Low(u)
    ensures Epoch(t + wait, alarm) - Epoch(t, alarm) == Epoch(u + wait, alarm) - Epoch(u, alarm)
  {
    var q := t / WRAP - u / WRAP;
    assert t == u + q * WRAP;
    EpochTurns(u, q, alarm);
    EpochTurns(u + wait, q, alarm);
  }

  lemma {:induction false} EpochTurns(u: int, q: int, alarm: nat)
    ensures Epoch(u + q * WRAP, alarm) == Epoch(u, alarm) + q
  {
  }
}
