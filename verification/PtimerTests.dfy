/** The readers, polling loops and capture callback of the PTIMER tests, with time passing between accesses. */
module PtimerTests {
  import opened Ptimer

  // ---------------------------------------------------------------- reading a moving counter

  const COUNTER: nat := 0x2000_0000_0000_0000

  /** Two reads of the high half that agree, around one of the low half, give the count at the low read. */
  lemma {:induction false} HighLowHigh(t1: nat, t2: nat, t3: nat)
    requires t1 <= t2 <= t3 && t3 - t1 <= COUNTER - WRAP
    requires High(t1) == High(t3)
    ensures High(t1) * WRAP + Low(t2) == t2 % COUNTER
  {
    assert t1 / WRAP == t3 / WRAP by { SameTurn(t1 / WRAP, t3 / WRAP); }
    Halves(t2);
  }

  lemma {:induction false} SameTurn(h: nat, k: nat)
    requires h <= k < h + TURNS && h % TURNS == k % TURNS
    ensures h == k
  {
  }

  lemma {:induction false} Halves(t: nat)
    ensures High(t) * WRAP + Low(t) == t % COUNTER
  {
  }

  /** What the hi-lo-hi reader returns for its three read times is right, if it accepts them. */
  predicate ReadsRight(t1: nat, t2: nat, t3: nat) {
    t1 <= t2 <= t3 && High(t1) == High(t3) ==> High(t1) * WRAP + Low(t2) == t2 % COUNTER
  }

  /** ... for all read times that span at most d counts. */
  ghost predicate RightWithin(d: nat) {
    forall t1: nat, t2: nat, t3: nat :: t3 - t1 <= d ==> ReadsRight(t1, t2, t3)
  }

  /** Exactly how far apart the two reads of the high half may be. */
  lemma {:induction false} RightWithinIff(d: nat)
    ensures RightWithin(d) <==> d <= COUNTER - WRAP
  {
    if d <= COUNTER - WRAP {
      forall t1: nat, t2: nat, t3: nat | t3 - t1 <= d ensures ReadsRight(t1, t2, t3) {
        if t1 <= t2 <= t3 && High(t1) == High(t3) { HighLowHigh(t1, t2, t3); }
      }
    } else {
      FirstMiss();
    }
  }

  /** The shortest span that goes wrong: from just before a carry to the end of that carry's full turn. */
  lemma {:induction false} FirstMiss()
    ensures COUNTER - (WRAP - 1) == COUNTER - WRAP + 1 && !ReadsRight(WRAP - 1, WRAP, COUNTER)
  {
  }

  /** How often the low half overflows on the way from t to u. */
  function Carries(t: nat, u: nat): nat
    requires t <= u
  {
    u / WRAP - t / WRAP
  }

  /** `time` is the count t1 with every carry up to t2 counted twice. */
  predicate PlusCarries(t1: nat, t2: nat, time: nat)
    requires t1 <= t2
  {
    time == (t1 + Carries(t1, t2) * WRAP) % COUNTER && (t2 < t1 + WRAP ==> Carries(t1, t2) <= 1)
  }

  /** `time` is the count t2 without the carries since t1. */
  predicate MinusCarries(t1: nat, t2: nat, time: nat)
    requires t1 <= t2
  {
    && t2 >= Carries(t1, t2) * WRAP && time == (t2 - Carries(t1, t2) * WRAP) % COUNTER
    && (t2 < t1 + WRAP ==> Carries(t1, t2) <= 1)
  }

  /** Low half first: every carry before the high read adds 2^32, and nothing else goes wrong. */
  lemma {:induction false} LowThenHigh(t1: nat, t2: nat)
    requires t1 <= t2
    ensures PlusCarries(t1, t2, High(t2) * WRAP + Low(t1))
  {
    var t, h := t1 + Carries(t1, t2) * WRAP, t2 / WRAP;
    assert t == h * WRAP + Low(t1);
    assert t / WRAP == h && Low(t) == Low(t1);
    Halves(t);
  }

  /** High half first: every carry before the low read loses 2^32. */
  lemma {:induction false} HighThenLow(t1: nat, t2: nat)
    requires t1 <= t2
    ensures MinusCarries(t1, t2, High(t1) * WRAP + Low(t2))
  {
    var h := t1 / WRAP;
    assert t2 - Carries(t1, t2) * WRAP == h * WRAP + Low(t2);
    var t := h * WRAP + Low(t2);
    assert t / WRAP == h && Low(t) == Low(t2);
    Halves(t);
  }

  // ---------------------------------------------------------------- the registers

  /** How fast the CPU is: `choice` says how many counts pass before each of its accesses, cut off at `gap`. */
  datatype Pace = Pace(gap: nat, choice: nat -> nat) {
    /** The counts before access k. */
    function Delay(k: nat): (d: nat)
      ensures d <= gap
    {
      if choice(k) <= gap then choice(k) else gap
    }

    /** The counts that pass over `count` accesses from access k on. */
    function Lapse(k: nat, count: nat): nat {
      if count == 0 then 0 else Lapse(k, count - 1) + Delay(k + count - 1)
    }
  }

  lemma {:induction false} LapseSplits(pace: Pace, k: nat, a: nat, b: nat)
    ensures pace.Lapse(k, a + b) == pace.Lapse(k, a) + pace.Lapse(k + a, b)
    decreases b
  {
    if b > 0 { LapseSplits(pace, k, a, b - 1); }
  }

  lemma {:induction false} LapseGrows(pace: Pace, k: nat, a: nat, b: nat)
    requires a <= b
    ensures pace.Lapse(k, a) <= pace.Lapse(k, b)
  {
    LapseSplits(pace, k, a, b - a);
  }

  /** Lapses of a few accesses, written out. */
  lemma {:induction false} ShortLapses(pace: Pace, k: nat)
    ensures pace.Lapse(k, 1) == pace.Delay(k)
    ensures pace.Lapse(k, 2) == pace.Delay(k) + pace.Delay(k + 1)
    ensures pace.Lapse(k, 3) == pace.Delay(k) + pace.Delay(k + 1) + pace.Delay(k + 2)
    ensures pace.Lapse(k, 4) == pace.Delay(k) + pace.Delay(k + 1) + pace.Delay(k + 2) + pace.Delay(k + 3)
  {
    var one := pace.Lapse(k, 1);
    assert pace.Lapse(k, 2) == one + pace.Delay(k + 1);
    assert pace.Lapse(k, 3) == pace.Lapse(k, 2) + pace.Delay(k + 2);
  }

  predicate IsLapse(pace: Pace, k: nat, count: nat, d: nat) { d == pace.Lapse(k, count) }

  /** `count` accesses from access k on only let time pass; folded until PassedIff asks for the definition. */
  ghost predicate Passed(a: Timer, b: Timer, pace: Pace, k: nat, count: nat) {
    forall d: nat {:trigger IsLapse(pace, k, count, d)} :: IsLapse(pace, k, count, d) ==> b == Step(a, Tick(d))
  }

  lemma {:induction false} PassedIff(a: Timer, b: Timer, pace: Pace, k: nat, count: nat)
    ensures Passed(a, b, pace, k, count) <==> b == Step(a, Tick(pace.Lapse(k, count)))
    ensures Passed(a, b, pace, k, count) <==> Ticked(a, b) && b.t == a.t + pace.Lapse(k, count)
  {
    assert IsLapse(pace, k, count, pace.Lapse(k, count));
  }

  lemma {:induction false} PassedOn(a: Timer, b: Timer, c: Timer, pace: Pace, k: nat, m: nat, count: nat)
    requires Passed(a, b, pace, k, m) && Passed(b, c, pace, k + m, count)
    ensures Passed(a, c, pace, k, m + count)
  {
    PassedIff(a, b, pace, k, m);
    PassedIff(b, c, pace, k + m, count);
    PassedIff(a, c, pace, k, m + count);
    LapseSplits(pace, k, m, count);
    TicksAdd(a, b, c);
  }

  lemma {:induction false} PassedOne(a: Timer, b: Timer, pace: Pace, k: nat)
    requires b == Step(a, Tick(pace.Delay(k)))
    ensures Passed(a, b, pace, k, 1)
  {
    ShortLapses(pace, k);
    PassedIff(a, b, pace, k, 1);
  }

  lemma {:induction false} PassedNext(a: Timer, b: Timer, c: Timer, pace: Pace, k: nat, m: nat)
    requires Passed(a, b, pace, k, m) && c == Step(b, Tick(pace.Delay(k + m)))
    ensures Passed(a, c, pace, k, m + 1)
  {
    PassedOne(b, c, pace, k + m);
    PassedOn(a, b, c, pace, k, m, 1);
  }

  lemma {:induction false} PassedThree(a: Timer, b: Timer, c: Timer, d: Timer, pace: Pace, k: nat)
    requires b == Step(a, Tick(pace.Delay(k))) && c == Step(b, Tick(pace.Delay(k + 1)))
    requires d == Step(c, Tick(pace.Delay(k + 2)))
    ensures Passed(a, d, pace, k, 3)
  {
    PassedOne(a, b, pace, k);
    PassedNext(a, b, c, pace, k, 1);
    PassedNext(a, c, d, pace, k, 2);
  }

  lemma {:induction false} PassedNone(a: Timer, pace: Pace, k: nat)
    ensures Passed(a, a, pace, k, 0)
  {
    PassedIff(a, a, pace, k, 0);
  }

  /** The time at the access that comes next. */
  lemma {:induction false} NextTime(a: Timer, b: Timer, pace: Pace, k: nat, m: nat)
    requires Passed(a, b, pace, k, m)
    ensures a.t + pace.Lapse(k, m + 1) == b.t + pace.Delay(k + m)
  {
    PassedIff(a, b, pace, k, m);
  }

  /** `time` is the counter as it stood `delay` counts before t. */
  predicate LowReadIs(t: nat, delay: nat, time: nat) { t >= delay && time == (t - delay) % COUNTER }

  /** Two reads of the high half a pass apart that do not agree. */
  predicate Disagree(first: nat, last: nat, gap: nat) {
    first <= last <= first + 2 * gap && High(first) != High(last)
  }

  datatype Exit = Latched | DeltaExceeded | TimedOut

  /** The registers as the CPU sees them: time passes before each access, as the pace says. */
  class Registers {
    const pace: Pace
    const gap: nat := pace.gap
    var s: Timer
    /** The number of accesses so far. */
    var n: nat

    constructor (s: Timer, pace: Pace)
      ensures this.s == s && this.pace == pace && n == 0
    {
      this.s := s;
      this.pace := pace;
      n := 0;
    }

    /** Time passes before the next access. */
    method Pass()
      modifies this`s, this`n
      ensures n == old(n) + 1 && s == Step(old(s), Tick(pace.Delay(old(n))))
    {
      s := Step(s, Tick(pace.Delay(n)));
      n := n + 1;
    }

    /** Time passes without an access: Sleep, or a line that goes to the log. */
    method Sleep(counts: nat)
      modifies this`s
      ensures s == Step(old(s), Tick(counts))
    {
      s := Step(s, Tick(counts));
    }

    method ReadTime0() returns (v: U32)
      modifies this`s, this`n
      ensures n == old(n) + 1 && s == Step(old(s), Tick(pace.Delay(old(n)))) && v == Low(s.t)
    {
      Pass();
      v := Low(s.t);
    }

    method ReadTime1() returns (v: U32)
      modifies this`s, this`n
      ensures n == old(n) + 1 && s == Step(old(s), Tick(pace.Delay(old(n)))) && v == High(s.t)
    {
      Pass();
      v := High(s.t);
    }

    method ReadIntr() returns (v: U32)
      modifies this`s, this`n
      ensures n == old(n) + 1 && s == Step(old(s), Tick(pace.Delay(old(n))))
      ensures v == if s.pending then 1 else 0
    {
      Pass();
      v := if s.pending then 1 else 0;
    }

    method ReadAlarm() returns (v: U32)
      modifies this`s, this`n
      ensures n == old(n) + 1 && s == Step(old(s), Tick(pace.Delay(old(n)))) && v == s.alarm
    {
      Pass();
      v := s.alarm;
    }

    /** A register write, after some time. */
    method Write(e: Event)
      requires !e.Tick? && !e.Interrupt?
      modifies this`s, this`n
      ensures n == old(n) + 1 && s == Step(Step(old(s), Tick(pace.Delay(old(n)))), e)
    {
      Pass();
      s := Step(s, e);
    }

    /** The CPU services an interrupt that is asserted. */
    method Service()
      modifies this`s
      ensures s == Step(old(s), Interrupt)
    {
      s := Step(s, Interrupt);
    }

    /**
      The hi-lo-hi reader, cut off after `budget` passes: exactly the count at the low read of its last
      pass, whenever it returns.  It returns after at most two passes when two passes span less than a turn
      of the low half.
     */
    method GetPTIMERTime(budget: nat) returns (done: bool, time: nat, passes: nat)
      requires budget > 0 && 2 * gap <= COUNTER - WRAP
      modifies this`s, this`n
      ensures 1 <= passes <= budget && n == old(n) + 3 * passes
      ensures Passed(old(s), s, pace, old(n), 3 * passes)
      ensures done ==> LowReadIs(s.t, pace.Delay(n - 1), time)
      ensures !done ==> passes == budget
      ensures 6 * gap < WRAP ==> passes <= 2 && (budget >= 2 ==> done)
    {
      ghost var first;
      done, time, first := ReadOnce();
      passes := 1;
      while !done && passes < budget
        invariant 1 <= passes <= budget && n == old(n) + 3 * passes
        invariant Passed(old(s), s, pace, old(n), 3 * passes)
        invariant done ==> LowReadIs(s.t, pace.Delay(n - 1), time)
        invariant !done && passes == 1 ==> Disagree(first, s.t, gap)
        invariant 6 * gap < WRAP ==> passes == 1 || (passes == 2 && done)
        decreases budget - passes
      {
        ghost var failed, before := first, s;
        done, time, first := ReadOnce();
        PassedOn(old(s), before, s, pace, old(n), 3 * passes, 3);
        if passes == 1 && 6 * gap < WRAP { OneCarry(failed, before.t, first, s.t); }
        passes := passes + 1;
      }
    }

    /** One pass of the reader. */
    method ReadOnce() returns (done: bool, time: nat, ghost first: nat)
      requires 2 * gap <= COUNTER - WRAP
      modifies this`s, this`n
      ensures n == old(n) + 3 && Passed(old(s), s, pace, old(n), 3)
      ensures old(s.t) <= first <= s.t <= first + 2 * gap && first <= old(s.t) + gap
      ensures done <==> High(first) == High(s.t)
      ensures done ==> LowReadIs(s.t, pace.Delay(n - 1), time)
      ensures !done ==> Disagree(first, s.t, gap)
    {
      var hi1 := ReadTime1();
      ghost var one := s;
      first := s.t;
      var lo := ReadTime0();
      ghost var two := s;
      var hi2 := ReadTime1();
      PassedThree(old(s), one, two, s, pace, old(n));
      done, time := hi1 == hi2, hi1 * WRAP + lo;
      if done { HighLowHigh(first, two.t, s.t); }
    }

    /** clock_main's reader: the low half, then the high half. */
    method ClockMainTime() returns (time: nat)
      modifies this`s, this`n
      ensures n == old(n) + 2 && s.t == old(s.t) + pace.Delay(old(n)) + pace.Delay(old(n) + 1)
      ensures PlusCarries(old(s.t) + pace.Delay(old(n)), s.t, time)
    {
      var lo := ReadTime0();
      ghost var at := s.t;
      var hi := ReadTime1();
      LowThenHigh(at, s.t);
      time := hi * WRAP + lo;
    }

    /** pfifo_cache1_main's reader: the high half, then the low half. */
    method GetNV2ATime() returns (time: nat)
      modifies this`s, this`n
      ensures n == old(n) + 2 && s.t == old(s.t) + pace.Delay(old(n)) + pace.Delay(old(n) + 1)
      ensures MinusCarries(old(s.t) + pace.Delay(old(n)), s.t, time)
    {
      var hi := ReadTime1();
      ghost var first := s.t;
      var lo := ReadTime0();
      HighThenLow(first, s.t);
      time := hi * WRAP + lo;
    }

    // -------------------------------------------------------------- polling for an alarm

    /**
      The polling loop: INTR_0, then TIME_0, until the flag is seen, or TIME_0 is more than `limit`
      past `base`, or the wall clock runs out after `polls` turns.

      `armed` says that the flag was clear when the alarm was armed, at `start`.  Then the loop never leaves
      by its time limit, and sees the flag exactly if the last of its turns reads INTR_0 at or after
      `target`; otherwise the wall clock ran out before the alarm could be seen.
     */
    method PollForAlarm(base: U32, limit: nat, polls: nat, ghost armed: bool, ghost slack: nat, ghost start: nat,
        ghost target: nat)
      returns (exit: Exit, latchedAt: U32)
      requires polls > 0
      requires armed ==> Aimed(s, gap, slack, start, target, base, limit)
      modifies this`s, this`n
      ensures n >= old(n) && Passed(old(s), s, pace, old(n), n - old(n))
      ensures old(s.pending) ==> exit == Latched
      ensures exit == Latched ==> s.pending && latchedAt == Low(s.t)
      ensures armed ==> PollsTo(old(s.t), pace, old(n), polls, target, exit, n - old(n))
      ensures armed ==> exit != DeltaExceeded
      ensures armed && exit == Latched ==> target <= s.t < target + slack + 2 * gap
      ensures armed && exit == TimedOut ==> s.t < target + gap
    {
      exit, latchedAt := TimedOut, 0;
      var left := polls;
      PassedNone(s, pace, n);
      while true
        invariant n == old(n) + 2 * (polls - left) && exit == TimedOut
        invariant Passed(old(s), s, pace, old(n), n - old(n))
        invariant armed ==> Aimed(s, gap, slack, start, target, base, limit)
        invariant armed ==> NotSeen(old(s.t), pace, old(n), n - old(n), target)
        invariant 0 < left <= polls && (if left == polls then s == old(s) else !old(s.pending))
        decreases left
      {
        var done;
        done, exit, latchedAt := PollTurn(base, limit, armed, slack, start, target, old(s), old(n), polls, left);
        left := left - 1;
        if done || left == 0 { return; }
      }
    }

    /** One turn of the loop, with what it means for the poll that began in state `s0` with access k. */
    method PollTurn(base: U32, limit: nat, ghost armed: bool, ghost slack: nat, ghost start: nat, ghost target: nat,
        ghost s0: Timer, ghost k: nat, ghost polls: nat, ghost left: nat)
      returns (done: bool, exit: Exit, latchedAt: U32)
      requires 0 < left <= polls && n == k + 2 * (polls - left) && Passed(s0, s, pace, k, n - k)
      requires armed ==> Aimed(s, gap, slack, start, target, base, limit) && NotSeen(s0.t, pace, k, n - k, target)
      modifies this`s, this`n
      ensures n == old(n) + 2 && Passed(s0, s, pace, k, n - k)
      ensures old(s.pending) ==> done && exit == Latched
      ensures done ==> exit == Latched || (exit == DeltaExceeded && !armed)
      ensures !done ==> exit == TimedOut && latchedAt == 0
      ensures done && exit == Latched ==> s.pending && latchedAt == Low(s.t)
      ensures armed && (done || left == 1) ==> PollsTo(s0.t, pace, k, polls, target, exit, n - k)
      ensures armed && done ==> target <= s.t < target + slack + 2 * gap
      ensures armed && !done ==>
        Aimed(s, gap, slack, start, target, base, limit) && s.t < target + gap
        && NotSeen(s0.t, pace, k, n - k, target)
    {
      ghost var before, m := s, n - k;
      NextTime(s0, s, pace, k, m);
      done, exit, latchedAt := PollOnce(base, limit, armed, slack, start, target);
      PassedOn(s0, before, s, pace, k, m, 2);
      if armed && done { SeenNow(s0.t, pace, k, polls, target, m); }
      if armed && !done && left == 1 { NeverSeen(s0.t, pace, k, polls, target, m); }
    }

    /** Reads INTR_0, and then TIME_0. */
    method PollOnce(base: U32, limit: nat, ghost armed: bool, ghost slack: nat, ghost start: nat, ghost target: nat)
      returns (done: bool, exit: Exit, latchedAt: U32)
      requires armed ==> Aimed(s, gap, slack, start, target, base, limit)
      modifies this`s, this`n
      ensures n == old(n) + 2 && Passed(old(s), s, pace, old(n), 2)
      ensures old(s.pending) ==> done && exit == Latched
      ensures done ==> exit == Latched || (exit == DeltaExceeded && !armed)
      ensures !done ==> exit == TimedOut && latchedAt == 0
      ensures done && exit == Latched ==> s.pending && latchedAt == Low(s.t)
      ensures armed ==> (done <==> old(s.t) + pace.Delay(old(n)) >= target)
      ensures armed && done ==> target <= s.t < target + slack + 2 * gap
      ensures armed && !done ==> Aimed(s, gap, slack, start, target, base, limit) && s.t < target + gap
    {
      done, exit, latchedAt := false, TimedOut, 0;
      var intr := ReadIntr();
      ghost var polled := s;
      if armed { StaysArmed(old(s), s, gap, slack, start, target); }
      if intr % 2 != 0 {
        latchedAt := ReadTime0();
        done, exit := true, Latched;
      } else {
        var now := ReadTime0();
        if armed { NotYet(polled, s, gap, slack, start, target, base, limit); }
        if (now - base) % WRAP > limit { done, exit := true, DeltaExceeded; }
      }
      PassedOne(old(s), polled, pace, old(n));
      PassedNext(old(s), polled, s, pace, old(n), 1);
    }

    /** Masks and acknowledges. */
    method Quiet()
      modifies this`s, this`n
      ensures n == old(n) + 2
      ensures s == Timer(old(s.t) + pace.Lapse(old(n), 2), old(s.alarm), false, false, old(s.fired))
    {
      ShortLapses(pace, n);
      Write(WriteEnable(0));
      Write(WriteIntr(1));
    }

    /** Enables interrupts, sleeps and disables them again, servicing what is asserted meanwhile. */
    method Unmask(slept: nat)
      modifies this`s, this`n
      ensures n == old(n) + 2
      ensures var on := old(s.t) + pace.Delay(old(n));
              var off := on + slept + pace.Delay(old(n) + 1);
              var first := if old(s.pending) || Crosses(old(s.t), on, old(s.alarm)) then 1 else 0;
              var second := if Crosses(on, off, old(s.alarm)) then 1 else 0;
              s == Timer(off, old(s.alarm), false, false, old(s.fired) + first + second)
    {
      Enable();
      Disable(slept);
    }

    method Enable()
      modifies this`s, this`n
      ensures n == old(n) + 1
      ensures var on := old(s.t) + pace.Delay(old(n));
              var due := if old(s.pending) || Crosses(old(s.t), on, old(s.alarm)) then 1 else 0;
              s == Timer(on, old(s.alarm), false, true, old(s.fired) + due)
    {
      Write(WriteEnable(1));
      Service();
    }

    method Disable(slept: nat)
      requires s.enabled && !s.pending
      modifies this`s, this`n
      ensures n == old(n) + 1
      ensures var off := old(s.t) + slept + pace.Delay(old(n));
              var due := if Crosses(old(s.t), off, old(s.alarm)) then 1 else 0;
              s == Timer(off, old(s.alarm), false, false, old(s.fired) + due)
    {
      Sleep(slept);
      ghost var woken := s;
      Pass();
      TicksAdd(old(s), woken, s);
      Service();
      s := Step(s, WriteEnable(0));
    }

    /** Writes ALARM_0 and reads the time. */
    method Arm(targetAlarm: U32, ghost target: nat, ghost acked: nat) returns (tArmed: U32)
      requires targetAlarm == Low(target) && targetAlarm % 32 == 0 && s.t + gap < target <= s.t + WRAP
      requires Watched(s, acked)
      modifies this`s, this`n
      ensures n == old(n) + 2 && Lapsed(old(s), s, pace.Delay(old(n)) + pace.Delay(old(n) + 1)) && tArmed == Low(s.t)
      ensures if Crosses(acked, old(s.t) + pace.Delay(old(n)), old(s.alarm)) then s.pending
              else Armed(s, gap, s.t, target)
    {
      Pass();
      StaysWatched(old(s), s, acked);
      ghost var spoilt := s.pending;
      s := Step(s, WriteAlarm(targetAlarm));
      ghost var written := s;
      tArmed := ReadTime0();
      if !spoilt { FirstRead(written, s, gap, target); }
    }

    /**
      The test up to its poll: arms an alarm 10,000,000 counts ahead with interrupts masked, and logs that.
      An old alarm that is crossed between the acknowledgement and the arming write spoils the flag.
     */
    method ArmAhead(logged: nat) returns (targetAlarm: U32, tArmed: U32)
      requires gap <= 5_000_000
      modifies this`s, this`n
      ensures n == old(n) + 5 && Lapsed(old(s), s, pace.Lapse(old(n), 5) + logged)
      ensures targetAlarm == Low(MaskedTarget(old(s), pace, old(n)))
      ensures if OldAlarmReached(old(s), pace, old(n), 2) then s.pending
              else Aimed(s, gap, gap + logged, s.t - logged, MaskedTarget(old(s), pace, old(n)), tArmed, 15_000_000)
    {
      ghost var start, k := s, n;
      ArmingTimes(start, pace, k);
      targetAlarm := AimAhead();
      tArmed := ArmAndLog(targetAlarm, logged, MaskedTarget(start, pace, k), start.t + pace.Lapse(k, 2));
    }

    /** Masks, acknowledges, reads the time and computes the target. */
    method AimAhead() returns (targetAlarm: U32)
      requires gap <= 5_000_000
      modifies this`s, this`n
      ensures n == old(n) + 3 && Lapsed(old(s), s, pace.Lapse(old(n), 3))
      ensures s.alarm == old(s.alarm) && Watched(s, old(s.t) + pace.Lapse(old(n), 2))
      ensures var target := MaskedTarget(old(s), pace, old(n));
              targetAlarm == Low(target) && targetAlarm % 32 == 0 && s.t + gap < target <= s.t + 10_000_000
    {
      var t0 := QuietThenRead();
      AheadIs(s.t, t0, MaskedTarget(old(s), pace, old(n)));
      targetAlarm := Masked((t0 + 10_000_000) % WRAP);
    }

    /** Writes ALARM_0, reads the time and logs. */
    method ArmAndLog(targetAlarm: U32, logged: nat, ghost target: nat, ghost acked: nat) returns (tArmed: U32)
      requires targetAlarm == Low(target) && targetAlarm % 32 == 0 && s.t + gap < target <= s.t + 10_000_000
      requires Watched(s, acked) && gap <= 5_000_000
      modifies this`s, this`n
      ensures n == old(n) + 2 && Lapsed(old(s), s, pace.Delay(old(n)) + pace.Delay(old(n) + 1) + logged)
      ensures if Crosses(acked, old(s.t) + pace.Delay(old(n)), old(s.alarm)) then s.pending
              else Aimed(s, gap, gap + logged, s.t - logged, target, tArmed, 15_000_000)
    {
      ghost var spoilt := Crosses(acked, s.t + pace.Delay(n), s.alarm);
      tArmed := Arm(targetAlarm, target, acked);
      ghost var first := s;
      Sleep(logged);
      if !spoilt { PausesArmed(first, s, gap, logged, target); }
    }

    /** Masks, acknowledges and reads the time. */
    method QuietThenRead() returns (t0: U32)
      modifies this`s, this`n
      ensures n == old(n) + 3 && Lapsed(old(s), s, pace.Lapse(old(n), 3)) && t0 == Low(s.t)
      ensures s.alarm == old(s.alarm) && Watched(s, old(s.t) + pace.Lapse(old(n), 2))
    {
      Quiet();
      ghost var acked := s;
      t0 := ReadTime0();
      StaysWatched(acked, s, acked.t);
    }

    /**
      An alarm that passes while interrupts are masked sets the flag and fires nothing.  The test passes
      exactly if the flag is seen, and then it fires once interrupts are enabled.  Unless an old alarm has
      spoilt it, the flag is seen exactly if the last turn reads INTR_0 at or after the target, the loop
      never leaves by its time limit, and the jitter is that of the read which follows.
     */
    method AlarmFlagIsSetWhileMasked(polls: nat, logged: nat, slept: nat)
      returns (pass: bool, exit: Exit, jitter: int)
      requires gap <= 5_000_000 && polls > 0 && 3 * gap + logged <= 0x8000_0000
      modifies this`s, this`n
      ensures pass <==> exit == Latched
      ensures exit == Latched <==> s.fired > old(s.fired)
      ensures !s.enabled && !s.pending
      ensures OldAlarmReached(old(s), pace, old(n), 2) ==> exit == Latched
      ensures n >= old(n) + 5 + if exit == Latched then 4 else 2
      ensures !OldAlarmReached(old(s), pace, old(n), 2) ==>
        var m := n - old(n) - 5 - if exit == Latched then 4 else 2;
        var start, target := old(s.t) + pace.Lapse(old(n), 5) + logged, MaskedTarget(old(s), pace, old(n));
        && PollsTo(start, pace, old(n) + 5, polls, target, exit, m)
        && (exit == Latched ==>
              jitter == start + pace.Lapse(old(n) + 5, m) - target && 0 <= jitter < 3 * gap + logged)
    {
      ghost var target, spoilt := MaskedTarget(s, pace, n), OldAlarmReached(s, pace, n, 2);
      var targetAlarm, tArmed := ArmAhead(logged);
      exit, jitter := PollAndMeasure(tArmed, 15_000_000, polls, targetAlarm, !spoilt, gap + logged, s.t - logged,
                                     target);
      pass := FinishMasked(exit == Latched, slept);
    }

    /** A flag that was seen must fire once interrupts are enabled; then the registers are cleaned up. */
    method FinishMasked(latched: bool, slept: nat) returns (pass: bool)
      requires latched ==> s.pending
      modifies this`s, this`n
      ensures (pass <==> latched) && (latched <==> s.fired > old(s.fired)) && !s.enabled && !s.pending
      ensures n == old(n) + if latched then 4 else 2
    {
      pass := latched;
      if latched {
        var before := s.fired;
        Unmask(slept);
        pass := s.fired > before;
      }
      Quiet();
    }

    method PollAndMeasure(base: U32, limit: nat, polls: nat, targetAlarm: U32, ghost armed: bool, ghost slack: nat,
        ghost start: nat, ghost target: nat)
      returns (exit: Exit, jitter: int)
      requires polls > 0 && slack + 2 * gap <= 0x8000_0000 && targetAlarm == Low(target)
      requires armed ==> Aimed(s, gap, slack, start, target, base, limit)
      modifies this`s, this`n
      ensures n >= old(n) && Passed(old(s), s, pace, old(n), n - old(n))
      ensures s.fired == old(s.fired) && s.alarm == old(s.alarm)
      ensures old(s.pending) ==> exit == Latched
      ensures exit == Latched ==> s.pending
      ensures armed ==> PollsTo(old(s.t), pace, old(n), polls, target, exit, n - old(n))
      ensures armed && exit == Latched ==>
        jitter == old(s.t) + pace.Lapse(old(n), n - old(n)) - target && 0 <= jitter < slack + 2 * gap
      ensures armed && exit == TimedOut ==> s.t < target + gap
    {
      var latchedAt;
      exit, latchedAt := PollForAlarm(base, limit, polls, armed, slack, start, target);
      jitter := Int32((latchedAt - targetAlarm) % WRAP);
      if armed && exit == Latched { JitterIs(s.t, target, slack + 2 * gap); }
      PassedIff(old(s), s, pace, old(n), n - old(n));
    }

    /**
      The boot test: TIME_0 is set 0x01000000 before the alarm that the machine booted with, whatever it
      is, and the flag is polled for another 0x01000000.
     */
    method PreInitBootAlarm(polls: nat) returns (exit: Exit, jitter: int)
      requires gap <= 0x0100_0000 && polls > 0 && s.alarm % 32 == 0
      modifies this`s, this`n
      ensures !s.pending && s.alarm == old(s.alarm)
      ensures OldAlarmReached(old(s), pace, old(n), 2) ==> exit == Latched
      ensures n >= old(n) + 5
      ensures !OldAlarmReached(old(s), pace, old(n), 2) ==>
        var m, start := n - old(n) - 5, BootStart(old(s), pace, old(n));
        && PollsTo(start, pace, old(n) + 4, polls, start + 0x0100_0000, exit, m)
        && (exit == Latched ==> jitter == pace.Lapse(old(n) + 4, m) - 0x0100_0000 && 0 <= jitter < 3 * gap)
    {
      var targetAlarm, startTime := BootSetUp();
      exit, jitter := PollAndMeasure(startTime, 0x0200_0000, polls, targetAlarm, !s.pending, gap,
                                     s.t, s.t + 0x0100_0000);
      Write(WriteIntr(1));
    }

    method BootSetUp() returns (targetAlarm: U32, startTime: U32)
      requires s.alarm % 32 == 0
      modifies this`s, this`n
      ensures n == old(n) + 4 && s.alarm == old(s.alarm) && s.t == BootStart(old(s), pace, old(n))
      ensures s.pending == OldAlarmReached(old(s), pace, old(n), 2)
      ensures targetAlarm == Low(s.t + 0x0100_0000)
      ensures !s.pending && gap <= 0x0100_0000 ==>
        Aimed(s, gap, gap, s.t, s.t + 0x0100_0000, startTime, 0x0200_0000)
    {
      ArmingTimes(s, pace, n);
      targetAlarm := AcknowledgeBootAlarm();
      startTime := SetBootTime(targetAlarm, old(s.t) + pace.Lapse(old(n), 2));
    }

    method SetBootTime(targetAlarm: U32, ghost acked: nat) returns (startTime: U32)
      requires targetAlarm == s.alarm && targetAlarm % 32 == 0 && Watched(s, acked)
      modifies this`s, this`n
      ensures n == old(n) + 1 && s.alarm == old(s.alarm)
      ensures var t := old(s.t) + pace.Delay(old(n));
              s.t == BootTime(t, targetAlarm) && s.pending == Crosses(acked, t, targetAlarm)
      ensures targetAlarm == Low(s.t + 0x0100_0000) && startTime == Low(s.t)
    {
      startTime := Masked((targetAlarm - 0x0100_0000) % WRAP);
      ghost var checked := s;
      Pass();
      StaysWatched(checked, s, acked);
      BootTarget(s.t / WRAP, targetAlarm);
      s := Step(s, WriteTime0(startTime));
    }

    method AcknowledgeBootAlarm() returns (targetAlarm: U32)
      modifies this`s, this`n
      ensures n == old(n) + 3 && s.t == old(s.t) + pace.Lapse(old(n), 3)
      ensures targetAlarm == s.alarm == old(s.alarm) && Watched(s, old(s.t) + pace.Lapse(old(n), 2))
    {
      ShortLapses(pace, n);
      targetAlarm := ReadAlarm();
      Write(WriteIntr(1));
      ghost var acked := s;
      var intr := ReadIntr();
      StaysWatched(acked, s, acked.t);
    }

    /** Moves a pending alarm 0x20000000 into the future; the flag stays up. */
    method AdjustPending(latchedAt: U32) returns (intrBefore: U32, intrAfter: U32)
      requires s.pending
      modifies this`s, this`n
      ensures intrBefore % 2 == 1 && intrAfter % 2 == 1 && s.pending
      ensures s.alarm == Masked((latchedAt + 0x2000_0000) % WRAP) && s.fired == old(s.fired)
    {
      intrBefore := ReadIntr();
      Write(WriteAlarm(Masked((latchedAt + 0x2000_0000) % WRAP)));
      intrAfter := ReadIntr();
    }
  }

  /** Polling from t on, the last of m accesses follows the first read of INTR_0 at or after `target`. */
  predicate FirstSeen(t: nat, pace: Pace, k: nat, m: nat, target: nat) {
    m >= 2 && m % 2 == 0 && t + pace.Lapse(k, m - 1) >= target && (m > 2 ==> t + pace.Lapse(k, m - 3) < target)
  }

  /** There is only one such m. */
  lemma {:induction false} FirstSeenIsUnique(t: nat, pace: Pace, k: nat, m: nat, l: nat, target: nat)
    requires FirstSeen(t, pace, k, m, target) && FirstSeen(t, pace, k, l, target)
    ensures m == l
  {
    if m < l { LapseGrows(pace, k, m - 1, l - 3); }
    if l < m { LapseGrows(pace, k, l - 1, m - 3); }
  }

  /** The reads of INTR_0 so far came before `target`. */
  predicate NotSeen(t: nat, pace: Pace, k: nat, m: nat, target: nat) { m == 0 || t + pace.Lapse(k, m - 1) < target }

  predicate StartsAt(t: nat, u: nat) { t == u }

  /**
    The end of a poll for an alarm at `target`, from t on, after m accesses: the flag is seen exactly if the
    last turn would read INTR_0 at or after the target, and then in the first turn that does.  Folded until
    PollsToIff asks for it.
   */
  ghost predicate PollsTo(t: nat, pace: Pace, k: nat, polls: nat, target: nat, exit: Exit, m: nat)
    requires polls > 0
  {
    forall u: nat {:trigger StartsAt(t, u)} :: StartsAt(t, u) ==>
      if u + pace.Lapse(k, 2 * polls - 1) >= target then exit == Latched && FirstSeen(u, pace, k, m, target)
      else exit == TimedOut && m == 2 * polls
  }

  lemma {:induction false} PollsToIff(t: nat, pace: Pace, k: nat, polls: nat, target: nat, exit: Exit, m: nat)
    requires polls > 0
    ensures PollsTo(t, pace, k, polls, target, exit, m) <==>
      if t + pace.Lapse(k, 2 * polls - 1) >= target then exit == Latched && FirstSeen(t, pace, k, m, target)
      else exit == TimedOut && m == 2 * polls
  {
    assert StartsAt(t, t);
  }

  lemma {:induction false} SeenNow(t: nat, pace: Pace, k: nat, polls: nat, target: nat, m: nat)
    requires m % 2 == 0 && m + 2 <= 2 * polls && NotSeen(t, pace, k, m, target)
    requires t + pace.Lapse(k, m + 1) >= target
    ensures PollsTo(t, pace, k, polls, target, Latched, m + 2)
  {
    LapseGrows(pace, k, m + 1, 2 * polls - 1);
    PollsToIff(t, pace, k, polls, target, Latched, m + 2);
  }

  lemma {:induction false} NeverSeen(t: nat, pace: Pace, k: nat, polls: nat, target: nat, m: nat)
    requires m + 2 == 2 * polls && t + pace.Lapse(k, m + 1) < target
    ensures PollsTo(t, pace, k, polls, target, TimedOut, m + 2)
  {
    PollsToIff(t, pace, k, polls, target, TimedOut, m + 2);
  }

  // ---------------------------------------------------------------- what an old alarm spoils

  /** The masked test's target: 10,000,000 counts after its first read of TIME_0. */
  function MaskedTarget(s: Timer, pace: Pace, n: nat): nat { Ahead(s.t + pace.Lapse(n, 3), 10_000_000) }

  /** The old alarm is reached within k accesses after the acknowledgement, which is access n + 1. */
  predicate OldAlarmReached(s: Timer, pace: Pace, n: nat, k: nat) {
    pace.Lapse(n + 2, k) >= Distance(s.t + pace.Lapse(n, 2), s.alarm)
  }

  /** Where the boot test puts the count t. */
  function BootTime(t: nat, alarm: U32): nat { t / WRAP * WRAP + (alarm - 0x0100_0000) % WRAP }

  /** ... and when its poll starts. */
  function BootStart(s: Timer, pace: Pace, n: nat): nat { BootTime(s.t + pace.Lapse(n, 4), s.alarm) }

  lemma {:induction false} BootTarget(h: nat, alarm: U32)
    requires alarm % 32 == 0
    ensures var start := (alarm - 0x0100_0000) % WRAP;
            start % 32 == 0 && Low(h * WRAP + start) == start && Low(h * WRAP + start + 0x0100_0000) == alarm
  {
  }

  /** A 32-bit difference as a signed number. */
  function Int32(v: U32): int { if v < 0x8000_0000 then v else v - WRAP }

  lemma {:induction false} JitterIs(t: nat, target: nat, most: nat)
    requires target <= t < target + most && most <= 0x8000_0000
    ensures Int32((Low(t) - Low(target)) % WRAP) == t - target
  {
    assert (Low(t) - Low(target)) % WRAP == (t - target) % WRAP;
  }

  /** The multiple of 32 at or below t + offset. */
  function Ahead(t: nat, offset: nat): nat { t + offset - (t + offset) % 32 }

  lemma {:induction false} AheadIs(t: nat, t0: U32, target: nat)
    requires target == Ahead(t, 10_000_000) && t0 == Low(t)
    ensures Masked((t0 + 10_000_000) % WRAP) == Low(target) && Low(target) % 32 == 0
    ensures t + 10_000_000 - 32 < target <= t + 10_000_000
  {
    LowAdds(t, 10_000_000);
    LowMasks(t + 10_000_000, (t + 10_000_000) / WRAP);
  }

  lemma {:induction false} LowAdds(t: nat, offset: nat)
    ensures (Low(t) + offset) % WRAP == Low(t + offset)
  {
  }

  lemma {:induction false} LowMasks(n: nat, q: nat)
    requires q == n / WRAP
    ensures Low(n - n % 32) == Masked(Low(n))
  {
    var l := Low(n);
    assert n == q * WRAP + l;
    assert n % 32 == l % 32;
    assert n - n % 32 == q * WRAP + Masked(l);
  }

  /** The read that follows the arming write. */
  lemma {:induction false} FirstRead(written: Timer, s: Timer, gap: nat, target: nat)
    requires !written.pending && written.t < target <= written.t + WRAP && Low(target) == written.alarm
    requires Ticked(written, s) && s.t <= written.t + gap
    ensures Armed(s, gap, s.t, target)
  {
    NextCrossing(written.t, target, written.alarm);
    CrossesWhenReached(written.t, s.t - written.t, written.alarm);
  }

  /** A pause before the poll begins. */
  lemma {:induction false} PausesArmed(a: Timer, b: Timer, gap: nat, paused: nat, target: nat)
    requires Armed(a, gap, a.t, target) && target <= a.t + 10_000_000 && gap <= 5_000_000
    requires b == Step(a, Tick(paused))
    ensures Aimed(b, gap, gap + paused, a.t, target, Low(a.t), 15_000_000)
  {
    FlagTells(a, b, gap, a.t, target);
  }

  /** The flag was clear at `acked`, and tells whether the alarm has been crossed since. */
  ghost predicate Watched(s: Timer, acked: nat) { acked <= s.t && (s.pending <==> Crosses(acked, s.t, s.alarm)) }

  lemma {:induction false} StaysWatched(a: Timer, b: Timer, acked: nat)
    requires Watched(a, acked) && Ticked(a, b)
    ensures Watched(b, acked)
  {
    EpochGrows(acked, a.t, a.alarm);
    EpochGrows(a.t, b.t, a.alarm);
  }

  /** b is a after d counts, apart from what was written. */
  ghost predicate Lapsed(a: Timer, b: Timer, d: nat) { b.t == a.t + d && b.fired == a.fired }

  /** Times of the accesses up to the poll, and when the old alarm counts. */
  lemma {:induction false} ArmingTimes(s: Timer, pace: Pace, n: nat)
    ensures pace.Lapse(n, 3) == pace.Lapse(n, 2) + pace.Delay(n + 2)
    ensures pace.Lapse(n, 4) == pace.Lapse(n, 3) + pace.Delay(n + 3)
    ensures pace.Lapse(n, 5) == pace.Lapse(n, 4) + pace.Delay(n + 4)
    ensures pace.Lapse(n, 2) == pace.Delay(n) + pace.Delay(n + 1)
    ensures pace.Lapse(n, 4) == pace.Lapse(n, 2) + pace.Lapse(n + 2, 2)
    ensures var acked := s.t + pace.Lapse(n, 2);
            OldAlarmReached(s, pace, n, 2) <==> Crosses(acked, s.t + pace.Lapse(n, 4), s.alarm)
  {
    ShortLapses(pace, n);
    ShortLapses(pace, n + 2);
    CrossesWhenReached(s.t + pace.Lapse(n, 2), pace.Lapse(n + 2, 2), s.alarm);
  }

  /** b is a after some time. */
  ghost predicate Ticked(a: Timer, b: Timer) { a.t <= b.t && b == Step(a, Tick(b.t - a.t)) }

  /** One tick after another is one longer tick. */
  lemma {:induction false} TicksAdd(a: Timer, b: Timer, c: Timer)
    requires Ticked(a, b) && Ticked(b, c)
    ensures Ticked(a, c)
  {
    EpochGrows(a.t, b.t, a.alarm);
    EpochGrows(b.t, c.t, a.alarm);
  }

  /** The flag tells exactly whether the count has reached `target`, and at most `slack` has gone by since. */
  ghost predicate Armed(s: Timer, slack: nat, start: nat, target: nat) {
    && start <= s.t < target + slack && Low(target) == s.alarm
    && (s.pending <==> s.t >= target)
    && (s.t < target ==> target <= s.t + WRAP)
  }

  /** ... and the poll's time limit is beyond it. */
  ghost predicate Aimed(s: Timer, gap: nat, slack: nat, start: nat, target: nat, base: U32, limit: nat) {
    Armed(s, slack, start, target) && gap <= slack && base == Low(start) && target - start + gap <= limit < WRAP
  }

  lemma {:induction false} NextCrossing(t: nat, target: nat, alarm: U32)
    requires t < target <= t + WRAP && Low(target) == alarm
    ensures Distance(t, alarm) == target - t
  {
  }

  /** The flag still tells whether `target` is reached, however far time has gone. */
  lemma {:induction false} FlagTells(a: Timer, b: Timer, slack: nat, start: nat, target: nat)
    requires Armed(a, slack, start, target) && Ticked(a, b)
    ensures b.pending <==> b.t >= target
  {
    if a.t < target {
      NextCrossing(a.t, target, a.alarm);
      CrossesWhenReached(a.t, b.t - a.t, a.alarm);
    }
  }

  /** At the flag read: either the flag is up, or the crossing is still ahead. */
  lemma {:induction false} StaysArmed(a: Timer, b: Timer, gap: nat, slack: nat, start: nat, target: nat)
    requires Armed(a, slack, start, target) && Ticked(a, b) && b.t <= a.t + gap
    ensures b.pending ==> target <= b.t < target + slack + gap
    ensures !b.pending ==> Armed(b, slack, start, target) && b.t < target
  {
    FlagTells(a, b, slack, start, target);
  }

  /** One access after a clear flag the time limit is not yet reached. */
  lemma {:induction false} NotYet(a: Timer, b: Timer, gap: nat, slack: nat, start: nat, target: nat, base: U32,
      limit: nat)
    requires Aimed(a, gap, slack, start, target, base, limit) && a.t < target && Ticked(a, b) && b.t <= a.t + gap
    ensures Armed(b, slack, start, target) && (Low(b.t) - base) % WRAP <= limit
  {
    FlagTells(a, b, slack, start, target);
    LowDistance(start, b.t);
  }

  /** Low halves tell a distance within a turn. */
  lemma {:induction false} LowDistance(start: nat, t: nat)
    requires start <= t < start + WRAP
    ensures (Low(t) - Low(start)) % WRAP == t - start
  {
    assert (Low(t) - Low(start)) % WRAP == (t - start) % WRAP;
  }

  /** After a carry no second one follows within the turn. */
  lemma {:induction false} OneCarry(a: nat, b: nat, c: nat, d: nat)
    requires a <= b <= c <= d < a + WRAP && High(a) != High(b)
    ensures High(c) == High(d)
  {
  }

  // ---------------------------------------------------------------- the capture callback

  const MAX_CAPTURES: nat := 32

  datatype Capture = Capture(alarmCount: nat, time0: U32, time1: U32, alarm: U32)

  function CaptureOf(s: Timer): Capture { Capture(s.fired, Low(s.t), High(s.t), s.alarm) }

  /** The firings of a serviced run, each as the callback would see it. */
  function Firings(s: Timer, ticks: seq<nat>): seq<Capture> {
    if ticks == [] then []
    else
      var init := ticks[..|ticks| - 1];
      var ticked := Step(Run(s, Serviced(init)), Tick(ticks[|ticks| - 1]));
      Firings(s, init) + if Asserted(ticked) then [CaptureOf(ticked)] else []
  }

  /** There are as many of them as the count of firings says. */
  lemma {:induction false} FiringsAreCounted(s: Timer, ticks: seq<nat>)
    ensures Run(s, Serviced(ticks)).fired == s.fired + |Firings(s, ticks)|
    decreases |ticks|
  {
    if ticks == [] {
      assert Run(s, []) == s;
    } else {
      var init := ticks[..|ticks| - 1];
      FiringsAreCounted(s, init);
      RunTwo(s, Serviced(init), Tick(ticks[|ticks| - 1]), Interrupt);
    }
  }

  /** Where the registers stand before the next tick of a serviced run. */
  lemma {:induction false} ServicedState(s: Timer, ticks: seq<nat>)
    ensures var r := Run(s, Serviced(ticks));
            r.t == s.t + Total(ticks) && r.alarm == s.alarm && r.enabled == s.enabled &&
            (s.enabled && r.pending ==> ticks == [] && s.pending)
  {
    if ticks != [] {
      var init := ticks[..|ticks| - 1];
      ServicedState(s, init);
      RunTwo(s, Serviced(init), Tick(ticks[|ticks| - 1]), Interrupt);
    } else {
      assert Run(s, []) == s;
    }
  }

  /** The count passes the alarm in tick j, or the flag was already up when the first tick began. */
  ghost predicate DueAt(s: Timer, ticks: seq<nat>, j: nat)
    requires j < |ticks|
  {
    || (j == 0 && s.pending)
    || exists v: nat :: s.t + Total(ticks[..j]) < v <= s.t + Total(ticks[..j + 1]) && v % 0x1_0000_0000 == s.alarm
  }

  /**
    Capture k was taken at the end of tick j, in which the alarm was due: its two halves are the count there,
    modulo 2^61, and k firings came before it.
   */
  ghost predicate TakenAt(c: Capture, s: Timer, ticks: seq<nat>, k: nat, j: nat) {
    && j < |ticks| && DueAt(s, ticks, j)
    && c.time1 * 0x1_0000_0000 + c.time0 == (s.t + Total(ticks[..j + 1])) % 0x2000_0000_0000_0000
    && c.alarm == s.alarm && c.alarmCount == s.fired + k
  }

  ghost predicate Taken(c: Capture, s: Timer, ticks: seq<nat>, k: nat) {
    exists j: nat :: TakenAt(c, s, ticks, k, j)
  }

  lemma {:induction false} LastFiring(s: Timer, ticks: seq<nat>)
    requires ticks != []
    requires Asserted(Step(Run(s, Serviced(ticks[..|ticks| - 1])), Tick(ticks[|ticks| - 1])))
    ensures var n := |ticks| - 1;
            TakenAt(CaptureOf(Step(Run(s, Serviced(ticks[..n])), Tick(ticks[n]))), s, ticks,
                    |Firings(s, ticks[..n])|, n)
  {
    var n := |ticks| - 1;
    var before := Run(s, Serviced(ticks[..n]));
    ServicedState(s, ticks[..n]);
    FiringsAreCounted(s, ticks[..n]);
    Halves(before.t + ticks[n]);
    CrossesIff(before.t, before.t + ticks[n], s.alarm);
    assert ticks[..n + 1] == ticks;
  }

  lemma {:induction false} TakenEarlier(c: Capture, s: Timer, ticks: seq<nat>, k: nat, j: nat)
    requires ticks != [] && TakenAt(c, s, ticks[..|ticks| - 1], k, j)
    ensures TakenAt(c, s, ticks, k, j)
  {
    var init := ticks[..|ticks| - 1];
    assert init[..j] == ticks[..j] && init[..j + 1] == ticks[..j + 1];
  }

  /** Every capture, by the clock. */
  lemma {:induction false} FiringTaken(s: Timer, ticks: seq<nat>, k: nat)
    requires k < |Firings(s, ticks)|
    ensures Taken(Firings(s, ticks)[k], s, ticks, k)
    decreases |ticks|
  {
    var n := |ticks| - 1;
    var earlier := Firings(s, ticks[..n]);
    if k < |earlier| {
      FiringTaken(s, ticks[..n], k);
      var j: nat :| TakenAt(earlier[k], s, ticks[..n], k, j);
      assert Firings(s, ticks)[k] == earlier[k];
      TakenEarlier(earlier[k], s, ticks, k, j);
    } else {
      LastFiring(s, ticks);
      assert Firings(s, ticks)[k] == CaptureOf(Step(Run(s, Serviced(ticks[..n])), Tick(ticks[n])));
    }
  }

  lemma {:induction false} FirstFewTaken(s: Timer, ticks: seq<nat>, held: seq<Capture>)
    requires held == FirstFew(Firings(s, ticks))
    ensures forall k: nat :: k < |held| ==> Taken(held[k], s, ticks, k)
  {
    forall k: nat | k < |held| ensures Taken(held[k], s, ticks, k) { FiringTaken(s, ticks, k); }
  }

  function FirstFew(all: seq<Capture>): seq<Capture> { if |all| <= MAX_CAPTURES then all else all[..MAX_CAPTURES] }

  /** g_alarm_captures and g_alarm_capture_count. */
  class CaptureBuffer {
    const data: array<Capture>
    var count: nat

    constructor ()
      ensures Valid() && Held() == [] && fresh(data)
    {
      data := new Capture[MAX_CAPTURES](i => Capture(0, 0, 0, 0));
      count := 0;
    }

    ghost predicate Valid()
      reads this
    {
      data.Length == MAX_CAPTURES && count <= MAX_CAPTURES
    }

    function Held(): seq<Capture>
      reads this, data
      requires Valid()
    {
      data[..count]
    }

    /** CapturingAlarmCallback: a full buffer keeps what it has. */
    method CapturingAlarmCallback(s: Timer)
      requires Valid()
      modifies this`count, data
      ensures Valid()
      ensures Held() == if |old(Held())| < MAX_CAPTURES then old(Held()) + [CaptureOf(s)] else old(Held())
    {
      var idx := count;
      if idx < MAX_CAPTURES {
        data[idx] := CaptureOf(s);
        count := idx + 1;
      }
    }
  }

  lemma {:induction false} FirstFewSnoc(all: seq<Capture>, c: Capture)
    ensures FirstFew(all + [c]) == if |FirstFew(all)| < MAX_CAPTURES then FirstFew(all) + [c] else FirstFew(all)
  {
  }

  /** Waiting with interrupts enabled: the buffer holds the first 32 firings, in order. */
  method WaitServiced(s: Timer, ticks: seq<nat>, buffer: CaptureBuffer) returns (r: Timer)
    requires buffer.Valid() && buffer.Held() == []
    modifies buffer, buffer.data
    ensures buffer.Valid() && r == Run(s, Serviced(ticks))
    ensures buffer.Held() == FirstFew(Firings(s, ticks))
    ensures forall k: nat :: k < |buffer.Held()| ==> Taken(buffer.Held()[k], s, ticks, k)
  {
    r := s;
    for i := 0 to |ticks|
      invariant buffer.Valid() && r == Run(s, Serviced(ticks[..i]))
      invariant buffer.Held() == FirstFew(Firings(s, ticks[..i]))
    {
      ghost var init := ticks[..i + 1];
      assert init[..i] == ticks[..i];
      RunTwo(s, Serviced(ticks[..i]), Tick(ticks[i]), Interrupt);
      r := Step(r, Tick(ticks[i]));
      if Asserted(r) {
        FirstFewSnoc(Firings(s, ticks[..i]), CaptureOf(r));
        buffer.CapturingAlarmCallback(r);
      }
      r := Step(r, Interrupt);
    }
    assert ticks[..|ticks|] == ticks;
    FirstFewTaken(s, ticks, buffer.Held());
  }

  /** A flag that is up fires at once, and then every passing of the alarm does. */
  lemma {:induction false} FiringsAfter(s: Timer, ticks: seq<nat>)
    requires s.enabled && forall i :: 0 <= i < |ticks| ==> ticks[i] <= WRAP
    ensures |Firings(s, [0] + ticks)|
         == (if s.pending then 1 else 0) + Epoch(s.t + Total(ticks), s.alarm) - Epoch(s.t, s.alarm)
  {
    FiringsAreCounted(s, [0] + ticks);
    ServicedFirst(s, 0, ticks);
    FirstServed(s);
    AllShort(s.t, s.alarm, ticks);
    FiringCount(s.(pending := false, fired := s.fired + if s.pending then 1 else 0), ticks);
  }

  lemma {:induction false} FirstServed(s: Timer)
    requires s.enabled
    ensures Step(Step(s, Tick(0)), Interrupt)
         == s.(pending := false, fired := s.fired + if s.pending then 1 else 0)
  {
  }

  lemma {:induction false} ServicedFirst(s: Timer, n: nat, ticks: seq<nat>)
    ensures Run(s, Serviced([n] + ticks)) == Run(Step(Step(s, Tick(n)), Interrupt), Serviced(ticks))
    decreases |ticks|
  {
    var served := Step(Step(s, Tick(n)), Interrupt);
    if ticks == [] {
      assert [n] + ticks == [n] && [n][..0] == [];
      RunTwo(s, [], Tick(n), Interrupt);
      assert [] + [Tick(n), Interrupt] == [Tick(n), Interrupt] && Serviced([]) == [];
    } else {
      var init, last := ticks[..|ticks| - 1], ticks[|ticks| - 1];
      ServicedFirst(s, n, init);
      assert ([n] + ticks)[..|ticks|] == [n] + init;
      RunTwo(s, Serviced([n] + init), Tick(last), Interrupt);
      RunTwo(served, Serviced(init), Tick(last), Interrupt);
    }
  }

  lemma {:induction false} RolloverPasses(start: nat, t: nat, u: nat)
    requires Low(start) == 0xFE00_0000 && start <= t < start + 0x0200_2000 && t <= u
    ensures Epoch(u, 0x2000) - Epoch(t, 0x2000) == 1 <==> 0x0200_2000 <= u - start < 0x0200_2000 + WRAP
    ensures Epoch(u, 0x2000) - Epoch(t, 0x2000) == 2 <==> 0x0200_2000 + WRAP <= u - start < 0x0200_2000 + 2 * WRAP
  {
    var h := start / WRAP;
    assert start == h * WRAP + 0xFE00_0000;
    assert Epoch(t, 0x2000) == h;
  }

  lemma {:induction false} AllShort(t: nat, alarm: nat, ticks: seq<nat>)
    requires forall i :: 0 <= i < |ticks| ==> ticks[i] <= WRAP
    ensures CrossAtMostOnce(t, alarm, ticks)
    decreases |ticks|
  {
    if ticks != [] {
      var init := ticks[..|ticks| - 1];
      AllShort(t, alarm, init);
      ShortTicksCrossOnce(t + Total(init), ticks[|ticks| - 1], alarm);
    }
  }
}
