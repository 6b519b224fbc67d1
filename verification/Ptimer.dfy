/** The PTIMER registers as a state machine over ticks, register writes and serviced interrupts. */
module Ptimer {

  const WRAP: nat := 0x1_0000_0000
  const TURNS: nat := 0x2000_0000

  type U32 = v: nat | v < 0x1_0000_0000

  /** TIME_0 and TIME_1 of a count: 32 bits and the 29 bits above them. */
  function Low(t: nat): U32 { t % WRAP }

  function High(t: nat): U32 { t / WRAP % TURNS }

  /** Times and alarms are multiples of 32. */
  function Masked(v: U32): U32 { v - v % 32 }

  /** How often the count has passed the alarm, up to a constant. */
  function Epoch(t: int, alarm: nat): int { (t - alarm) / WRAP }

  /** Going from t to u passes a count whose low part is the alarm. */
  predicate Crosses(t: nat, u: nat, alarm: nat) { Epoch(t, alarm) < Epoch(u, alarm) }

  predicate Hits(v: nat, alarm: nat) { Low(v) == alarm }

  lemma {:induction false} HitIsEpochStart(v: nat, alarm: U32)
    ensures Hits(v, alarm) <==> (v - alarm) % WRAP == 0
  {
  }

  /** Crossing, said without epochs. */
  lemma {:induction false} CrossesIff(t: nat, u: nat, alarm: U32)
    requires t <= u
    ensures Crosses(t, u, alarm) <==> exists v: nat :: t < v <= u && Hits(v, alarm)
  {
    if Crosses(t, u, alarm) {
      var v := Epoch(u, alarm) * WRAP + alarm;
      assert t < v <= u;
      assert Hits(v, alarm);
    }
    if v: nat :| t < v <= u && Hits(v, alarm) {
      HitIsEpochStart(v, alarm);
      assert Epoch(t, alarm) < Epoch(v, alarm) <= Epoch(u, alarm);
    }
  }

  /** How far ahead the next crossing is; a whole turn when the count is at the alarm or just past it. */
  function Distance(t: nat, alarm: U32): (d: nat)
    ensures 1 <= d <= WRAP && Hits(t + d, alarm)
  {
    HitIsEpochStart(t + (WRAP - (t - alarm) % WRAP), alarm);
    WRAP - (t - alarm) % WRAP
  }

  /** An alarm in the past waits for the next time round. */
  lemma {:induction false} CrossesWhenReached(t: nat, n: nat, alarm: U32)
    ensures Crosses(t, t + n, alarm) <==> n >= Distance(t, alarm)
  {
  }

  // ---------------------------------------------------------------- the state machine

  datatype Timer = Timer(t: nat, alarm: U32, pending: bool, enabled: bool, fired: nat)

  datatype Event =
    | Tick(n: nat)
    | WriteTime0(v: U32)
    | WriteTime1(v: U32)
    | WriteAlarm(v: U32)
    | WriteIntr(v: U32)
    | WriteEnable(v: U32)
    | Interrupt

  /** The interrupt line. */
  predicate Asserted(s: Timer) { s.pending && s.enabled }

  /** INTR_0 is write-1-to-clear; servicing an asserted interrupt acknowledges it and counts it. */
  function Step(s: Timer, e: Event): Timer {
    match e
    case Tick(n) => s.(t := s.t + n, pending := s.pending || Crosses(s.t, s.t + n, s.alarm))
    case WriteTime0(v) => s.(t := s.t / WRAP * WRAP + Masked(v))
    case WriteTime1(v) => s.(t := v % TURNS * WRAP + Low(s.t))
    case WriteAlarm(v) => s.(alarm := Masked(v))
    case WriteIntr(v) => s.(pending := s.pending && v % 2 == 0)
    case WriteEnable(v) => s.(enabled := v % 2 == 1)
    case Interrupt => if Asserted(s) then s.(pending := false, fired := s.fired + 1) else s
  }

  function Run(s: Timer, es: seq<Event>): Timer {
    if es == [] then s else Step(Run(s, es[..|es| - 1]), es[|es| - 1])
  }

  /** Event i of a run latches: a tick crosses the alarm that is current then. */
  predicate LatchesAt(s: Timer, es: seq<Event>, i: nat)
    requires i < |es|
  {
    var before := Run(s, es[..i]);
    es[i].Tick? && Crosses(before.t, before.t + es[i].n, before.alarm)
  }

  /** Event i of a run acknowledges: a write of 1 to INTR_0, or an asserted interrupt that is serviced. */
  predicate AcknowledgesAt(s: Timer, es: seq<Event>, i: nat)
    requires i < |es|
  {
    (es[i].WriteIntr? && es[i].v % 2 == 1) || (es[i].Interrupt? && Asserted(Run(s, es[..i])))
  }

  /** Nothing from event `first` on acknowledges. */
  ghost predicate Unacknowledged(s: Timer, es: seq<Event>, first: nat) {
    forall j :: first <= j < |es| ==> !AcknowledgesAt(s, es, j)
  }

  /** Bit 0 of INTR_0, from the history alone. */
  ghost predicate ShouldBePending(s: Timer, es: seq<Event>) {
    || (s.pending && Unacknowledged(s, es, 0))
    || exists i :: 0 <= i < |es| && LatchesAt(s, es, i) && Unacknowledged(s, es, i + 1)
  }

  /**
    INTR_0 bit 0 is set exactly if some tick since the last acknowledgement crossed the alarm that
    was current at that tick.  Writes of 0, ALARM_0, TIME_0, TIME_1 and INTR_EN_0 never alter it.
   */
  lemma {:induction false} PendingIff(s: Timer, es: seq<Event>)
    ensures Run(s, es).pending <==> ShouldBePending(s, es)
    decreases |es|
  {
    if es != [] {
      var init, last := es[..|es| - 1], |es| - 1;
      PendingIff(s, init);
      Prefixes(s, es);
      if AcknowledgesAt(s, es, last) {
        forall i | 0 <= i <= last ensures !Unacknowledged(s, es, i) { assert AcknowledgesAt(s, es, last); }
      } else if LatchesAt(s, es, last) {
        assert Unacknowledged(s, es, last + 1);
      } else {
        HistoryGrows(s, es);
      }
    }
  }

  /** What happened before the last event is the same in the longer history. */
  lemma {:induction false} Prefixes(s: Timer, es: seq<Event>)
    requires es != []
    ensures forall i :: 0 <= i < |es| - 1 ==>
      (LatchesAt(s, es, i) <==> LatchesAt(s, es[..|es| - 1], i)) &&
      (AcknowledgesAt(s, es, i) <==> AcknowledgesAt(s, es[..|es| - 1], i))
  {
    forall i | 0 <= i < |es| - 1
      ensures es[..i] == es[..|es| - 1][..i]
    {
    }
  }

  lemma {:induction false} UnacknowledgedGrows(s: Timer, es: seq<Event>, first: nat)
    requires es != [] && !AcknowledgesAt(s, es, |es| - 1)
    ensures Unacknowledged(s, es, first) <==> Unacknowledged(s, es[..|es| - 1], first)
  {
    Prefixes(s, es);
    var init := es[..|es| - 1];
    if Unacknowledged(s, init, first) {
      forall j | first <= j < |es| ensures !AcknowledgesAt(s, es, j) {
        if j < |init| { assert !AcknowledgesAt(s, init, j); }
      }
    }
    if Unacknowledged(s, es, first) {
      forall j | first <= j < |init| ensures !AcknowledgesAt(s, init, j) { assert !AcknowledgesAt(s, es, j); }
    }
  }

  lemma {:induction false} HistoryGrows(s: Timer, es: seq<Event>)
    requires es != [] && !AcknowledgesAt(s, es, |es| - 1) && !LatchesAt(s, es, |es| - 1)
    ensures ShouldBePending(s, es) <==> ShouldBePending(s, es[..|es| - 1])
  {
    Prefixes(s, es);
    var init := es[..|es| - 1];
    forall i: nat | i <= |init| ensures Unacknowledged(s, es, i) <==> Unacknowledged(s, init, i) {
      UnacknowledgedGrows(s, es, i);
    }
    if i :| 0 <= i < |es| && LatchesAt(s, es, i) && Unacknowledged(s, es, i + 1) {
      assert LatchesAt(s, init, i) && Unacknowledged(s, init, i + 1);
    }
    if i :| 0 <= i < |init| && LatchesAt(s, init, i) && Unacknowledged(s, init, i + 1) {
      assert LatchesAt(s, es, i) && Unacknowledged(s, es, i + 1);
    }
  }

  /** While INTR_EN_0 stays 0 nothing fires, whatever is pending. */
  lemma {:induction false} MaskedNeverFires(s: Timer, es: seq<Event>)
    requires !s.enabled && forall i :: 0 <= i < |es| && es[i].WriteEnable? ==> es[i].v % 2 == 0
    ensures Run(s, es).fired == s.fired && !Run(s, es).enabled
    decreases |es|
  {
    if es != [] { MaskedNeverFires(s, es[..|es| - 1]); }
  }

  // ---------------------------------------------------------------- how often an alarm fires

  /** Time passes in ticks, and an interrupt is serviced after each. */
  function Serviced(ticks: seq<nat>): seq<Event> {
    if ticks == [] then [] else Serviced(ticks[..|ticks| - 1]) + [Tick(ticks[|ticks| - 1]), Interrupt]
  }

  function Total(ticks: seq<nat>): nat {
    if ticks == [] then 0 else Total(ticks[..|ticks| - 1]) + ticks[|ticks| - 1]
  }

  /** No tick passes the alarm twice. */
  predicate CrossAtMostOnce(t: nat, alarm: nat, ticks: seq<nat>) {
    ticks != [] ==>
      var init := ticks[..|ticks| - 1];
      CrossAtMostOnce(t, alarm, init) && Epoch(t + Total(ticks), alarm) - Epoch(t + Total(init), alarm) <= 1
  }

  lemma {:induction false} RunTwo(s: Timer, es: seq<Event>, e: Event, f: Event)
    ensures Run(s, es + [e, f]) == Step(Step(Run(s, es), e), f)
  {
    var all := es + [e, f];
    assert all[..|all| - 1] == es + [e];
    assert (es + [e])[..|es|] == es;
  }

  lemma {:induction false} EpochGrows(t: nat, u: nat, alarm: nat)
    requires t <= u
    ensures Epoch(t, alarm) <= Epoch(u, alarm)
  {
  }

  /** A serviced tick counts one firing if it passes the alarm at all. */
  lemma {:induction false} TickServiced(s: Timer, n: nat)
    requires s.enabled && !s.pending
    ensures var passes := Epoch(s.t + n, s.alarm) - Epoch(s.t, s.alarm);
            passes >= 0
            && Step(Step(s, Tick(n)), Interrupt) == s.(t := s.t + n, fired := s.fired + if passes > 0 then 1 else 0)
  {
    EpochGrows(s.t, s.t + n, s.alarm);
  }

  /**
    However an interval is split into ticks, an enabled and always acknowledged alarm fires at most
    once for every time the count passes it, and exactly that often if and only if no tick passes it twice.
   */
  lemma {:induction false} FiringCount(s: Timer, ticks: seq<nat>)
    requires s.enabled && !s.pending
    ensures var r := Run(s, Serviced(ticks));
            r == s.(t := s.t + Total(ticks), fired := r.fired)
    ensures var passes := Epoch(s.t + Total(ticks), s.alarm) - Epoch(s.t, s.alarm);
            s.fired <= Run(s, Serviced(ticks)).fired <= s.fired + passes
    ensures var passes := Epoch(s.t + Total(ticks), s.alarm) - Epoch(s.t, s.alarm);
            Run(s, Serviced(ticks)).fired == s.fired + passes <==> CrossAtMostOnce(s.t, s.alarm, ticks)
    decreases |ticks|
  {
    if ticks != [] {
      var init, n := ticks[..|ticks| - 1], ticks[|ticks| - 1];
      FiringCount(s, init);
      RunTwo(s, Serviced(init), Tick(n), Interrupt);
      TickServiced(Run(s, Serviced(init)), n);
    } else {
      assert Run(s, []) == s;
    }
  }

  /** A tick of less than a turn passes the alarm at most once. */
  lemma {:induction false} ShortTicksCrossOnce(t: nat, n: nat, alarm: nat)
    requires n <= WRAP
    ensures Epoch(t + n, alarm) - Epoch(t, alarm) <= 1
  {
  }
}
