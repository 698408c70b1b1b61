// The 6522 VIA's interrupts and timers: the cached interrupt line over every run of writes, ticks and edges, and
// how often the two timers fire.

module Via {
  import opened Bits
  import Division

  /** Bits 0 to 6 of the interrupt flag and enable registers are sets of bit numbers; bit 7 of the first is `any`. */
  datatype Interrupts = Interrupts(flags: set<nat>, any: bool, enabled: set<nat>, active: bool)

  const CA2: nat := 0
  const CA1: nat := 1
  const CB1: nat := 4
  const T2: nat := 5
  const T1: nat := 6

  datatype Timers = Timers(count1: nat, latch1: nat, pb7: bool, count2: nat, latch2: nat)

  /** What the auxiliary and peripheral control registers and the data direction of port A select. */
  datatype Control = Control(continuous: bool, pb7Out: bool, countsPulses: bool, ca1Rises: bool, cb1Rises: bool,
                             ca2Cleared: bool)

  datatype State = State(irq: Interrupts, timers: Timers, control: Control, ca1: bool, cb1: bool)

  // ---------------------------------------------------------------- flags

  function Cached(i: Interrupts): Interrupts {
    i.(active := i.flags * i.enabled != {})
  }

  function Raise(i: Interrupts, bit: nat): Interrupts {
    if bit in i.flags then i else Cached(i.(flags := i.flags + {bit}, any := true))
  }

  function RaiseIf(i: Interrupts, bit: nat, condition: bool): Interrupts {
    if condition then Raise(i, bit) else i
  }

  function Clear(i: Interrupts, bit: nat): Interrupts {
    if bit !in i.flags then i
    else Cached(i.(flags := i.flags - {bit}, any := i.any && i.flags - {bit} != {}))
  }

  function ClearIf(i: Interrupts, bit: nat, condition: bool): Interrupts {
    if condition then Clear(i, bit) else i
  }

  /** The bits of a byte below the given one. */
  function BitsBelow(data: byte, n: nat): set<nat> {
    set b: nat | b < n && Bit(data, b)
  }

  /** A write to the flag register clears each of the seven flags whose bit is one. */
  function WriteFlags(i: Interrupts, data: byte, n: nat): Interrupts {
    if n == 0 then i else ClearIf(WriteFlags(i, data, n - 1), n - 1, Bit(data, n - 1))
  }

  /** Bit 7 of a write to the enable register says whether its ones set or clear. */
  function WriteEnable(i: Interrupts, data: byte): Interrupts {
    Cached(i.(enabled := if 128 <= data then i.enabled + BitsBelow(data, 7) else i.enabled - BitsBelow(data, 7)))
  }

  /** The cached line is what the registers say, and bit 7 of the flag register is set if and only if another is. */
  predicate Consistent(i: Interrupts) {
    i.active == (i.flags * i.enabled != {}) && i.any == (i.flags != {})
  }

  lemma RaiseKeeps(i: Interrupts, bit: nat)
    requires Consistent(i)
    ensures Consistent(Raise(i, bit)) && Raise(i, bit).flags == i.flags + {bit}
  {
    assert bit in i.flags + {bit};
  }

  lemma ClearKeeps(i: Interrupts, bit: nat)
    requires Consistent(i)
    ensures Consistent(Clear(i, bit)) && Clear(i, bit).flags == i.flags - {bit}
  {
  }

  lemma {:induction false} WriteFlagsKeeps(i: Interrupts, data: byte, n: nat)
    requires Consistent(i)
    ensures Consistent(WriteFlags(i, data, n)) && WriteFlags(i, data, n).flags == i.flags - BitsBelow(data, n)
    ensures WriteFlags(i, data, n).enabled == i.enabled
  {
    if n > 0 {
      WriteFlagsKeeps(i, data, n - 1);
      ClearKeeps(WriteFlags(i, data, n - 1), n - 1);
    }
  }

  // ---------------------------------------------------------------- timers

  predicate Fires1(t: Timers) {
    t.count1 == 1
  }

  predicate Fires2(t: Timers, c: Control) {
    !c.countsPulses && t.count2 == 1
  }

  function TickTimers(t: Timers, c: Control): Timers {
    Timers(if t.count1 == 0 then 0 else if Fires1(t) && c.continuous then t.latch1 else t.count1 - 1,
           t.latch1,
           if Fires1(t) && c.pb7Out then !c.continuous || !t.pb7 else t.pb7,
           if c.countsPulses then t.count2 else if t.count2 == 0 then 0xffff else t.count2 - 1,
           t.latch2)
  }

  function TimersAfter(t: Timers, c: Control, ticks: nat): Timers {
    if ticks == 0 then t else TickTimers(TimersAfter(t, c, ticks - 1), c)
  }

  /** How often timer 1 fires in so many ticks. */
  function Fired1(t: Timers, c: Control, ticks: nat): nat {
    if ticks == 0 then 0
    else Fired1(t, c, ticks - 1) + if Fires1(TimersAfter(t, c, ticks - 1)) then 1 else 0
  }

  function Fired2(t: Timers, c: Control, ticks: nat): nat {
    if ticks == 0 then 0
    else Fired2(t, c, ticks - 1) + if Fires2(TimersAfter(t, c, ticks - 1), c) then 1 else 0
  }

  /** Timer 1 as a write of its high byte leaves it. */
  predicate Started1(t: Timers, n: nat) {
    t.count1 == t.latch1 == n
  }

  /** In continuous mode the counter is at n less the ticks since it last fired, which it does every n ticks. */
  lemma {:induction false} ContinuousRuns(t: Timers, c: Control, n: nat, ticks: nat)
    requires Started1(t, n) && 0 < n && c.continuous
    ensures TimersAfter(t, c, ticks).latch1 == n && TimersAfter(t, c, ticks).count1 == n - ticks % n
    ensures Fired1(t, c, ticks) == ticks / n
  {
    if ticks > 0 {
      ContinuousRuns(t, c, n, ticks - 1);
      Division.OneMore(ticks, n);
    }
  }

  /** In one-shot mode it fires once, after n ticks. */
  lemma {:induction false} OneShotRuns(t: Timers, c: Control, n: nat, ticks: nat)
    requires Started1(t, n) && 0 < n && !c.continuous
    ensures TimersAfter(t, c, ticks).count1 == if ticks < n then n - ticks else 0
    ensures Fired1(t, c, ticks) == if ticks < n then 0 else 1
  {
    if ticks > 0 {
      OneShotRuns(t, c, n, ticks - 1);
    }
  }

  /** A latch of zero never fires, in either mode. */
  lemma {:induction false} ZeroNeverFires(t: Timers, c: Control, ticks: nat)
    requires Started1(t, 0)
    ensures TimersAfter(t, c, ticks).count1 == 0 && Fired1(t, c, ticks) == 0
  {
    if ticks > 0 {
      ZeroNeverFires(t, c, ticks - 1);
    }
  }

  lemma {:induction false} Timer2Counts(t: Timers, c: Control, ticks: nat)
    requires t.count2 < 0x10000 && !c.countsPulses
    ensures TimersAfter(t, c, ticks).count2 == (t.count2 - ticks) % 0x10000
  {
    if ticks > 0 {
      Timer2Counts(t, c, ticks - 1);
      OneDown(t.count2 - (ticks - 1));
    }
  }

  lemma OneDown(x: int)
    ensures (x - 1) % 0x10000 == if x % 0x10000 == 0 then 0xffff else x % 0x10000 - 1
  {
  }

  /** Timer 2 fires after its count, and again each time that it has run all the way round. */
  lemma {:induction false} Timer2GoesRound(t: Timers, c: Control, ticks: nat)
    requires t.count2 < 0x10000 && !c.countsPulses
    ensures var first := if t.count2 == 0 then 0x10000 else t.count2;
            Fired2(t, c, ticks) == if ticks < first then 0 else 1 + (ticks - first) / 0x10000
  {
    if ticks > 0 {
      Timer2GoesRound(t, c, ticks - 1);
      Timer2Counts(t, c, ticks - 1);
      hide TimersAfter;
      FiresAt(t.count2, ticks);
    }
  }

  /** The tick that finds the counter at one is a whole number of rounds after the first of them. */
  lemma FiresAt(count: nat, ticks: nat)
    requires count < 0x10000 && 0 < ticks
    ensures var first := if count == 0 then 0x10000 else count;
            var fires := (count - (ticks - 1)) % 0x10000 == 1;
            (ticks < first ==> !fires) && (ticks == first ==> fires) &&
            (first < ticks ==>
              (ticks - first) / 0x10000 == (ticks - first - 1) / 0x10000 + if fires then 1 else 0)
  {
    var first := if count == 0 then 0x10000 else count;
    if first < ticks {
      var d := ticks - first;
      Division.OneMore(d, 0x10000);
      WholeRounds(d);
      SameRound(count, ticks - 1);
    }
  }

  lemma WholeRounds(d: nat)
    ensures (1 - d) % 0x10000 == 1 <==> d % 0x10000 == 0
  {
  }

  lemma SameRound(count: nat, ticks: nat)
    ensures (0x10000 - ticks) % 0x10000 == (0 - ticks) % 0x10000
  {
  }

  // ---------------------------------------------------------------- runs

  datatype Event =
    | Tick(ca1: Option<bool>, ca2Low: bool)
    | WriteLatchLow(low: byte) | WriteLatchHigh(high: byte) | WriteCounterHigh(high: byte)
    | WriteTimer2Low(low: byte) | WriteTimer2High(high: byte)
    | SetControl(control: Control)
    | WriteIfr(data: byte) | WriteIer(data: byte)
    | ReadCounterLow | ReadPortA | WritePortA | SetCb1(level: bool)

  /** An edge of CA1 of the kind that the peripheral control register selects. */
  predicate Edge(was: bool, level: bool, rises: bool) {
    was != level && level == rises
  }

  predicate Ca1Edge(s: State, e: Event) {
    e.Tick? && e.ca1.Some? && Edge(s.ca1, e.ca1.value, s.control.ca1Rises)
  }

  function TickInterrupts(s: State, e: Event): Interrupts
    requires e.Tick?
  {
    var timed := RaiseIf(RaiseIf(s.irq, T1, Fires1(s.timers)), T2, Fires2(s.timers, s.control));
    RaiseIf(RaiseIf(timed, CA1, Ca1Edge(s, e)), CA2, e.ca2Low)
  }

  function NextInterrupts(s: State, e: Event): Interrupts {
    match e
    case Tick(_, _) => TickInterrupts(s, e)
    case WriteCounterHigh(_) => Clear(s.irq, T1)
    case ReadCounterLow => Clear(s.irq, T1)
    case WriteTimer2High(_) => Clear(s.irq, T2)
    case WriteIfr(data) => WriteFlags(s.irq, data, 7)
    case WriteIer(data) => WriteEnable(s.irq, data)
    case ReadPortA => Clear(s.irq, CA1)
    case WritePortA => Clear(ClearIf(s.irq, CA2, s.control.ca2Cleared), CA1)
    case SetCb1(level) => RaiseIf(s.irq, CB1, Edge(s.cb1, level, s.control.cb1Rises))
    case _ => s.irq
  }

  function NextTimers(s: State, e: Event): Timers {
    var t := s.timers;
    match e
    case Tick(_, _) => TickTimers(t, s.control)
    case WriteLatchLow(low) => t.(latch1 := t.latch1 / 256 * 256 + low)
    case WriteLatchHigh(high) => t.(latch1 := high * 256 + t.latch1 % 256)
    case WriteCounterHigh(high) =>
      var latch := high * 256 + t.latch1 % 256;
      t.(latch1 := latch, count1 := latch, pb7 := t.pb7 && !s.control.pb7Out)
    case WriteTimer2Low(low) => t.(latch2 := low)
    case WriteTimer2High(high) => t.(count2 := high * 256 + t.latch2 % 256)
    case _ => t
  }

  function After(s: State, e: Event): State {
    State(NextInterrupts(s, e), NextTimers(s, e), if e.SetControl? then e.control else s.control,
          if e.Tick? && e.ca1.Some? then e.ca1.value else s.ca1,
          if e.SetCb1? then e.level else s.cb1)
  }

  function AfterAll(s: State, events: seq<Event>): State {
    if events == [] then s else After(AfterAll(s, events[..|events| - 1]), events[|events| - 1])
  }

  lemma StepKeeps(s: State, e: Event)
    requires Consistent(s.irq)
    ensures Consistent(After(s, e).irq)
  {
    hide Consistent, Raise, Clear, Fires1, Fires2, Ca1Edge, Edge;
    match e
    case Tick(_, _) =>
      var i := s.irq;
      RaiseIfKeeps(i, T1, Fires1(s.timers));
      i := RaiseIf(i, T1, Fires1(s.timers));
      RaiseIfKeeps(i, T2, Fires2(s.timers, s.control));
      i := RaiseIf(i, T2, Fires2(s.timers, s.control));
      RaiseIfKeeps(i, CA1, Ca1Edge(s, e));
      RaiseIfKeeps(RaiseIf(i, CA1, Ca1Edge(s, e)), CA2, e.ca2Low);
    case WriteCounterHigh(_) => ClearKeeps(s.irq, T1);
    case ReadCounterLow => ClearKeeps(s.irq, T1);
    case WriteTimer2High(_) => ClearKeeps(s.irq, T2);
    case WriteIfr(data) => WriteFlagsKeeps(s.irq, data, 7);
    case WriteIer(data) => EnableKeeps(s.irq, data);
    case ReadPortA => ClearKeeps(s.irq, CA1);
    case WritePortA =>
      ClearKeeps(s.irq, CA2);
      ClearKeeps(ClearIf(s.irq, CA2, s.control.ca2Cleared), CA1);
    case SetCb1(level) => RaiseIfKeeps(s.irq, CB1, Edge(s.cb1, level, s.control.cb1Rises));
    case _ =>
  }

  lemma RaiseIfKeeps(i: Interrupts, bit: nat, condition: bool)
    requires Consistent(i)
    ensures Consistent(RaiseIf(i, bit, condition))
    ensures RaiseIf(i, bit, condition).flags == if condition then i.flags + {bit} else i.flags
  {
    RaiseKeeps(i, bit);
  }

  lemma EnableKeeps(i: Interrupts, data: byte)
    requires Consistent(i)
    ensures Consistent(WriteEnable(i, data)) && WriteEnable(i, data).flags == i.flags
  {
  }

  /** Over every run of writes, reads, ticks and edges the cached line is right, and so is bit 7. */
  lemma {:induction false} EveryRunIsConsistent(s: State, events: seq<Event>)
    requires Consistent(s.irq)
    ensures Consistent(AfterAll(s, events).irq)
  {
    if events != [] {
      EveryRunIsConsistent(s, events[..|events| - 1]);
      StepKeeps(AfterAll(s, events[..|events| - 1]), events[|events| - 1]);
    }
  }

  /** The events that serve each interrupt. */
  predicate Serves(s: State, e: Event, bit: nat) {
    match e
    case WriteCounterHigh(_) => bit == T1
    case ReadCounterLow => bit == T1
    case WriteTimer2High(_) => bit == T2
    case WriteIfr(data) => bit < 7 && Bit(data, bit)
    case ReadPortA => bit == CA1
    case WritePortA => bit == CA1 || (bit == CA2 && s.control.ca2Cleared)
    case _ => false
  }

  /** The events that raise each interrupt. */
  predicate Raises(s: State, e: Event, bit: nat) {
    match e
    case Tick(ca1, ca2Low) =>
      (bit == T1 && s.timers.count1 == 1) || (bit == T2 && s.timers.count2 == 1 && !s.control.countsPulses) ||
      (bit == CA1 && ca1 == Some(s.control.ca1Rises) && s.ca1 == !s.control.ca1Rises) || (bit == CA2 && ca2Low)
    case SetCb1(level) => bit == CB1 && level == s.control.cb1Rises && s.cb1 == !s.control.cb1Rises
    case _ => false
  }

  /** A flag is set after an event if and only if the event raises it, or it was set and the event does not serve it. */
  lemma FlagsChangeOnlySo(s: State, e: Event, bit: nat)
    requires Consistent(s.irq)
    ensures bit in After(s, e).irq.flags <==> Raises(s, e, bit) || (bit in s.irq.flags && !Serves(s, e, bit))
  {
    hide Consistent, Raise, Clear, Bit;
    match e
    case Tick(_, _) =>
      var i := s.irq;
      RaiseIfKeeps(i, T1, Fires1(s.timers));
      i := RaiseIf(i, T1, Fires1(s.timers));
      RaiseIfKeeps(i, T2, Fires2(s.timers, s.control));
      i := RaiseIf(i, T2, Fires2(s.timers, s.control));
      RaiseIfKeeps(i, CA1, Ca1Edge(s, e));
      RaiseIfKeeps(RaiseIf(i, CA1, Ca1Edge(s, e)), CA2, e.ca2Low);
    case WriteCounterHigh(_) => ClearKeeps(s.irq, T1);
    case ReadCounterLow => ClearKeeps(s.irq, T1);
    case WriteTimer2High(_) => ClearKeeps(s.irq, T2);
    case WriteIfr(data) => WriteFlagsKeeps(s.irq, data, 7);
    case WriteIer(data) => EnableKeeps(s.irq, data);
    case ReadPortA => ClearKeeps(s.irq, CA1);
    case WritePortA =>
      ClearKeeps(s.irq, CA2);
      ClearKeeps(ClearIf(s.irq, CA2, s.control.ca2Cleared), CA1);
    case SetCb1(level) => RaiseIfKeeps(s.irq, CB1, Edge(s.cb1, level, s.control.cb1Rises));
    case _ =>
  }

  /** The bit of a write to the flag register that clears each flag, with 1 for bit 0, 2 for bit 1 and so on. */
  lemma FlagNumbers(s: State, data: byte)
    requires Consistent(s.irq)
    ensures var i, f := After(s, WriteIfr(data)).irq.flags, s.irq.flags;
            && (T1 in i <==> T1 in f && !Bit(data, 6)) && (T2 in i <==> T2 in f && !Bit(data, 5))
            && (CB1 in i <==> CB1 in f && !Bit(data, 4))
            && (CA1 in i <==> CA1 in f && !Bit(data, 1)) && (CA2 in i <==> CA2 in f && !Bit(data, 0))
  {
    hide Bit;
    WriteFlagsKeeps(s.irq, data, 7);
    hide WriteFlags;
  }

  // ---------------------------------------------------------------- what is written is what is timed

  /** Events of which each is a tick, whatever CA1 and CA2 do. */
  predicate AllTicks(events: seq<Event>) {
    forall i | 0 <= i < |events| :: events[i].Tick?
  }

  lemma {:induction false} TicksRun(s: State, events: seq<Event>)
    requires AllTicks(events)
    ensures AfterAll(s, events).timers == TimersAfter(s.timers, s.control, |events|)
    ensures AfterAll(s, events).control == s.control
  {
    if events != [] {
      TicksRun(s, events[..|events| - 1]);
    }
  }

  lemma AfterTwo(s: State, a: Event, b: Event)
    ensures AfterAll(s, [a, b]) == After(After(s, a), b)
  {
    assert [a, b][..1] == [a] && [a][..0] == [];
    assert AfterAll(s, []) == s;
  }

  /** A flag that is down is up after some ticks if and only if its timer has fired in them. */
  lemma {:induction false} FlagFollowsTimer(s: State, events: seq<Event>)
    requires Consistent(s.irq) && AllTicks(events)
    ensures T1 !in s.irq.flags ==>
              (T1 in AfterAll(s, events).irq.flags <==> 0 < Fired1(s.timers, s.control, |events|))
    ensures T2 !in s.irq.flags ==>
              (T2 in AfterAll(s, events).irq.flags <==> 0 < Fired2(s.timers, s.control, |events|))
  {
    if events != [] {
      var n := |events| - 1;
      FlagFollowsTimer(s, events[..n]);
      EveryRunIsConsistent(s, events[..n]);
      TicksRun(s, events[..n]);
      OneEventMore(s, events);
      hide AfterAll, After, Consistent;
      FlagsChangeOnlySo(AfterAll(s, events[..n]), events[n], T1);
      FlagsChangeOnlySo(AfterAll(s, events[..n]), events[n], T2);
    }
  }

  lemma OneEventMore(s: State, events: seq<Event>)
    requires events != []
    ensures AfterAll(s, events) == After(AfterAll(s, events[..|events| - 1]), events[|events| - 1])
  {
  }

  /** Two events after a run, and then others. */
  lemma AfterParts(s: State, run: seq<Event>, a: Event, b: Event, rest: seq<Event>)
    ensures AfterAll(s, run + [a, b] + rest) == AfterAll(After(After(AfterAll(s, run), a), b), rest)
  {
    hide After;
    AfterConcat(s, run + [a, b], rest);
    AfterConcat(s, run, [a, b]);
    AfterTwo(AfterAll(s, run), a, b);
  }

  lemma {:induction false} AfterConcat(s: State, a: seq<Event>, b: seq<Event>)
    ensures AfterAll(s, a + b) == AfterAll(AfterAll(s, a), b)
  {
    hide After;
    if b == [] {
      assert a + b == a;
    } else {
      AfterConcat(s, a, b[..|b| - 1]);
      assert (a + b)[..|a + b| - 1] == a + b[..|b| - 1];
    }
  }

  /** Timer 1 just written: low byte to T1L-L or T1C-L, then high byte to T1C-H. */
  lemma TimerOneWritten(s: State, low: byte, high: byte)
    ensures var t := After(After(s, WriteLatchLow(low)), WriteCounterHigh(high));
            && Started1(t.timers, 256 * high + low) && t.control == s.control && T1 !in t.irq.flags
            && t.timers.pb7 == (s.timers.pb7 && !s.control.pb7Out)
            && t.timers.count2 == s.timers.count2 && t.timers.latch2 == s.timers.latch2
  {
  }

  /** How often timer 1 is to fire in so many ticks after a write of n. */
  function Firings(n: nat, continuous: bool, ticks: nat): nat {
    if n == 0 || ticks < n then 0 else if continuous then ticks / n else 1
  }

  /**
   * From the bus: after any run, with the low byte written to T1L-L or T1C-L and the high byte to T1C-H, timer 1
   * fires in the next ticks as often as the number written says, the T1 flag goes up with the first of them, and PB7
   * where it is put out toggles with each, or goes up with the one.
   */
  lemma TimerOneFromBus(s: State, run: seq<Event>, low: byte, high: byte, ticks: seq<Event>)
    requires Consistent(s.irq) && AllTicks(ticks)
    ensures var written := AfterAll(s, run + [WriteLatchLow(low), WriteCounterHigh(high)]);
            var u := AfterAll(s, run + [WriteLatchLow(low), WriteCounterHigh(high)] + ticks);
            var fired := Firings(256 * high + low, written.control.continuous, |ticks|);
            && Fired1(written.timers, written.control, |ticks|) == fired
            && (T1 in u.irq.flags <==> 0 < fired)
            && (written.control.pb7Out ==>
                  u.timers.pb7 == if written.control.continuous then fired % 2 == 1 else 0 < fired)
  {
    var before, n := AfterAll(s, run), 256 * high + low;
    var written := After(After(before, WriteLatchLow(low)), WriteCounterHigh(high));
    EveryRunIsConsistent(s, run);
    TimerOneWritten(before, low, high);
    StepKeeps(before, WriteLatchLow(low));
    StepKeeps(After(before, WriteLatchLow(low)), WriteCounterHigh(high));
    AfterParts(s, run, WriteLatchLow(low), WriteCounterHigh(high), ticks);
    AfterParts(s, run, WriteLatchLow(low), WriteCounterHigh(high), []);
    var writes := [WriteLatchLow(low), WriteCounterHigh(high)];
    assert run + writes + [] == run + writes;
    assert AfterAll(written, []) == written;
    hide After, AfterAll, Consistent;
    FlagFollowsTimer(written, ticks);
    TicksRun(written, ticks);
    StartedFires(written.timers, written.control, n, |ticks|);
    Pb7Follows(written.timers, written.control, |ticks|);
  }

  lemma StartedFires(t: Timers, c: Control, n: nat, ticks: nat)
    requires Started1(t, n)
    ensures Fired1(t, c, ticks) == Firings(n, c.continuous, ticks)
  {
    if n == 0 {
      ZeroNeverFires(t, c, ticks);
    } else if c.continuous {
      ContinuousRuns(t, c, n, ticks);
      if ticks < n {
        Division.QuotientIs(ticks, n, 0, ticks);
      }
    } else {
      OneShotRuns(t, c, n, ticks);
    }
  }

  lemma {:induction false} Pb7Follows(t: Timers, c: Control, ticks: nat)
    ensures c.pb7Out && !t.pb7 ==>
              TimersAfter(t, c, ticks).pb7
                == if c.continuous then Fired1(t, c, ticks) % 2 == 1 else 0 < Fired1(t, c, ticks)
    ensures !c.pb7Out ==> TimersAfter(t, c, ticks).pb7 == t.pb7
  {
    if ticks > 0 {
      Pb7Follows(t, c, ticks - 1);
    }
  }

  /** A latch written while timer 1 runs is taken up when it next fires: n ticks apart from there on. */
  lemma {:induction false} LatchTakesOver(t: Timers, c: Control, ticks: nat)
    requires 0 < t.count1 && 0 < t.latch1 && c.continuous
    ensures var u := TimersAfter(t, c, ticks);
            var since := ticks - t.count1;
            && u.latch1 == t.latch1
            && Fired1(t, c, ticks) == (if since < 0 then 0 else 1 + since / t.latch1)
            && u.count1 == if since < 0 then -since else t.latch1 - since % t.latch1
  {
    if ticks > 0 {
      LatchTakesOver(t, c, ticks - 1);
      if t.count1 < ticks {
        Division.OneMore(ticks - t.count1, t.latch1);
      } else if t.count1 == ticks {
        Division.QuotientIs(0, t.latch1, 0, 0);
      }
    }
  }

  /** A write to either half of the latch leaves the counter, and the other half. */
  lemma LatchWritten(s: State, low: byte, high: byte)
    ensures var t := After(After(s, WriteLatchLow(low)), WriteLatchHigh(high));
            t.timers == s.timers.(latch1 := 256 * high + low)
    ensures After(After(s, WriteLatchHigh(high)), WriteLatchLow(low)).timers == s.timers.(latch1 := 256 * high + low)
  {
  }

  /** From the bus, timer 2: low byte to T2C-L, then high byte to T2C-H. */
  lemma TimerTwoFromBus(s: State, run: seq<Event>, low: byte, high: byte, ticks: seq<Event>)
    requires Consistent(s.irq) && AllTicks(ticks)
    ensures var written := AfterAll(s, run + [WriteTimer2Low(low), WriteTimer2High(high)]);
            var u := AfterAll(s, run + [WriteTimer2Low(low), WriteTimer2High(high)] + ticks);
            var n := 256 * high + low;
            var first := if n == 0 then 0x10000 else n;
            var waits := written.control.countsPulses || |ticks| < first;
            var fired := if waits then 0 else 1 + (|ticks| - first) / 0x10000;
            && Fired2(written.timers, written.control, |ticks|) == fired && (T2 in u.irq.flags <==> 0 < fired)
            && (written.control.countsPulses ==> u.timers.count2 == n)
  {
    var before, n := AfterAll(s, run), 256 * high + low;
    var written := After(After(before, WriteTimer2Low(low)), WriteTimer2High(high));
    EveryRunIsConsistent(s, run);
    StepKeeps(before, WriteTimer2Low(low));
    StepKeeps(After(before, WriteTimer2Low(low)), WriteTimer2High(high));
    AfterParts(s, run, WriteTimer2Low(low), WriteTimer2High(high), ticks);
    AfterParts(s, run, WriteTimer2Low(low), WriteTimer2High(high), []);
    var writes := [WriteTimer2Low(low), WriteTimer2High(high)];
    assert run + writes + [] == run + writes;
    assert AfterAll(written, []) == written;
    TimerTwoWritten(before, low, high);
    hide After, AfterAll, Consistent;
    FlagFollowsTimer(written, ticks);
    TicksRun(written, ticks);
    if written.control.countsPulses {
      Timer2Waits(written.timers, written.control, |ticks|);
    } else {
      Timer2GoesRound(written.timers, written.control, |ticks|);
    }
  }

  lemma TimerTwoWritten(s: State, low: byte, high: byte)
    ensures var t := After(After(s, WriteTimer2Low(low)), WriteTimer2High(high));
            t.timers.count2 == 256 * high + low && t.control == s.control && T2 !in t.irq.flags
  {
  }

  /** While it counts pulses instead it stands still. */
  lemma {:induction false} Timer2Waits(t: Timers, c: Control, ticks: nat)
    requires c.countsPulses
    ensures TimersAfter(t, c, ticks).count2 == t.count2 && Fired2(t, c, ticks) == 0
  {
    if ticks > 0 {
      Timer2Waits(t, c, ticks - 1);
    }
  }

  /** Nothing else moves either timer, and a write to one leaves the other; T2's low byte waits for its high byte. */
  lemma TimersMoveOnlySo(s: State, e: Event)
    requires !e.Tick?
    ensures var t, u := s.timers, After(s, e).timers;
            && (e.WriteTimer2Low? ==> u == t.(latch2 := e.low))
            && (e.WriteTimer2High? ==> u == t.(count2 := u.count2))
            && (e.WriteLatchLow? || e.WriteLatchHigh? ==> u == t.(latch1 := u.latch1))
            && (e.WriteCounterHigh? ==> u == t.(latch1 := u.latch1, count1 := u.count1, pb7 := u.pb7))
            && (u != t ==> e.WriteLatchLow? || e.WriteLatchHigh? || e.WriteCounterHigh? || e.WriteTimer2Low? ||
                           e.WriteTimer2High?)
  {
  }

  // ---------------------------------------------------------------- the handshake lines over every run

  /** The level that the last tick with a keyboard or sync level showed on CA1. */
  function LastCa1(s: State, events: seq<Event>): bool {
    if events == [] then s.ca1 else
      var e := events[|events| - 1];
      if e.Tick? && e.ca1.Some? then e.ca1.value else LastCa1(s, events[..|events| - 1])
  }

  function LastCb1(s: State, events: seq<Event>): bool {
    if events == [] then s.cb1 else
      var e := events[|events| - 1];
      if e.SetCb1? then e.level else LastCb1(s, events[..|events| - 1])
  }

  lemma {:induction false} LinesAreLast(s: State, events: seq<Event>)
    ensures AfterAll(s, events).ca1 == LastCa1(s, events) && AfterAll(s, events).cb1 == LastCb1(s, events)
  {
    hide NextTimers, NextInterrupts;
    if events != [] {
      LinesAreLast(s, events[..|events| - 1]);
    }
  }

  /** So an event raises CA1 or CB1 exactly if the level it shows is the active one and the last one shown was not. */
  lemma EdgesAreOfTheLines(s: State, events: seq<Event>, e: Event)
    ensures var now := AfterAll(s, events);
            && (Raises(now, e, CA1) <==> e.Tick? && e.ca1 == Some(now.control.ca1Rises)
                                         && LastCa1(s, events) != now.control.ca1Rises)
            && (Raises(now, e, CB1) <==> e.SetCb1? && e.level == now.control.cb1Rises
                                         && LastCb1(s, events) != now.control.cb1Rises)
  {
    hide AfterAll;
    LinesAreLast(s, events);
  }

  // ---------------------------------------------------------------- the enable register over every run

  /** The event writes the enable register with the given bit set. */
  predicate Selects(e: Event, bit: nat) {
    e.WriteIer? && Bit(e.data, bit)
  }

  /** The last such write of a run is this one. */
  predicate LastSelects(events: seq<Event>, i: nat, bit: nat) {
    i < |events| && Selects(events[i], bit) && forall j | i < j < |events| :: !Selects(events[j], bit)
  }

  /** An interrupt is enabled after a run if and only if the last write that selected it had bit 7 set. */
  lemma {:induction false} EnabledByLastWrite(s: State, events: seq<Event>, bit: nat)
    requires bit < 7
    ensures bit in AfterAll(s, events).irq.enabled <==>
              (exists i: nat :: LastSelects(events, i, bit) && Bit(events[i].data, 7)) ||
              (bit in s.irq.enabled && forall i | 0 <= i < |events| :: !Selects(events[i], bit))
  {
    if events != [] {
      var n := |events| - 1;
      var e := events[n];
      EnabledByLastWrite(s, events[..n], bit);
      EnableMoves(AfterAll(s, events[..n]), e, bit);
      OneEventMore(s, events);
      hide After, AfterAll, Selects;
      if Selects(e, bit) {
        assert LastSelects(events, n, bit);
        forall i: nat | LastSelects(events, i, bit) ensures i == n {
        }
      } else {
        forall i: nat ensures LastSelects(events, i, bit) <==> LastSelects(events[..n], i, bit) {
          SameLast(events, i, bit);
        }
        assert (forall i | 0 <= i < |events| :: !Selects(events[i], bit)) <==>
               (forall i | 0 <= i < n :: !Selects(events[..n][i], bit));
      }
    }
  }

  lemma SameLast(events: seq<Event>, i: nat, bit: nat)
    requires events != [] && !Selects(events[|events| - 1], bit)
    ensures LastSelects(events, i, bit) <==> LastSelects(events[..|events| - 1], i, bit)
  {
    hide Selects;
    var n := |events| - 1;
    if LastSelects(events[..n], i, bit) {
      forall j | i < j < |events| ensures !Selects(events[j], bit) {
        if j < n {
          assert events[..n][j] == events[j];
        }
      }
    }
  }

  lemma EnableMoves(s: State, e: Event, bit: nat)
    requires bit < 7
    ensures bit in After(s, e).irq.enabled <==> if Selects(e, bit) then Bit(e.data, 7) else bit in s.irq.enabled
  {
    if e.WriteIer? {
      TopBit(e.data);
    } else {
      OthersKeepEnabled(s, e);
    }
  }

  lemma OthersKeepEnabled(s: State, e: Event)
    requires !e.WriteIer?
    ensures After(s, e).irq.enabled == s.irq.enabled
  {
    hide Bit, Edge, Fires1, Fires2;
    if e.WriteIfr? {
      WriteFlagsEnabled(s.irq, e.data, 7);
    }
  }

  lemma {:induction false} WriteFlagsEnabled(i: Interrupts, data: byte, n: nat)
    ensures WriteFlags(i, data, n).enabled == i.enabled
  {
    if n > 0 {
      WriteFlagsEnabled(i, data, n - 1);
    }
  }
}

module ViaChip {
  import opened Bits
  import opened Via

  class Via6522 {
    var irq: Interrupts
    var timers: Timers
    var control: Control
    var ca1: bool
    var cb1: bool

    function Now(): State
      reads this
    {
      State(irq, timers, control, ca1, cb1)
    }

    /** Timer 2 has no initial value in the source: it is given one here. */
    constructor (count2: nat, latch2: nat)
      ensures irq == Interrupts({}, false, {}, false) && timers == Timers(0, 0, false, count2, latch2)
      ensures !ca1 && !cb1
    {
      irq, timers := Interrupts({}, false, {}, false), Timers(0, 0, false, count2, latch2);
      control, ca1, cb1 := Control(false, false, false, false, false, true), false, false;
    }

    method UpdateIrqCache()
      modifies this`irq
      ensures irq == Cached(old(irq))
    {
      irq := irq.(active := irq.flags * irq.enabled != {});
    }

    method RaiseIrq(bit: nat)
      modifies this`irq
      ensures irq == Raise(old(irq), bit)
    {
      if bit in irq.flags { return; }
      irq := irq.(flags := irq.flags + {bit}, any := true);
      UpdateIrqCache();
    }

    method ClearIrq(bit: nat)
      modifies this`irq
      ensures irq == Clear(old(irq), bit)
    {
      if bit !in irq.flags { return; }
      irq := irq.(flags := irq.flags - {bit});
      if irq.flags == {} {
        irq := irq.(any := false);
      }
      UpdateIrqCache();
    }

    method WriteInterruptFlags(data: byte)
      modifies this`irq
      ensures irq == WriteFlags(old(irq), data, 7)
    {
      var bit := 0;
      while bit < 7
        invariant bit <= 7 && irq == WriteFlags(old(irq), data, bit)
      {
        if Bit(data, bit) {
          ClearIrq(bit);
        }
        bit := bit + 1;
      }
    }

    method WriteIrqEnable(data: byte)
      modifies this`irq
      ensures irq == WriteEnable(old(irq), data)
    {
      if 128 <= data {
        irq := irq.(enabled := irq.enabled + BitsBelow(data, 7));
      } else {
        irq := irq.(enabled := irq.enabled - BitsBelow(data, 7));
      }
      UpdateIrqCache();
    }

    method CheckTimers()
      modifies this`irq, this`timers
      ensures timers == TickTimers(old(timers), control)
      ensures irq == RaiseIf(RaiseIf(old(irq), T1, Fires1(old(timers))), T2, Fires2(old(timers), control))
    {
      hide Raise;
      if timers.count1 != 0 {
        timers := timers.(count1 := timers.count1 - 1);
        if timers.count1 == 0 {
          if control.continuous {
            if control.pb7Out {
              timers := timers.(pb7 := !timers.pb7);
            }
            timers := timers.(count1 := timers.latch1);
          } else if control.pb7Out {
            timers := timers.(pb7 := true);
          }
          RaiseIrq(T1);
        }
      }
      if !control.countsPulses {
        timers := timers.(count2 := if timers.count2 == 0 then 0xffff else timers.count2 - 1);
        if timers.count2 == 0 {
          RaiseIrq(T2);
        }
      }
    }

    method SetCa1(level: bool)
      modifies this`irq, this`ca1
      ensures ca1 == level && irq == RaiseIf(old(irq), CA1, Edge(old(ca1), level, control.ca1Rises))
    {
      if level == ca1 { return; }
      ca1 := level;
      if ca1 == control.ca1Rises {
        RaiseIrq(CA1);
      }
    }

    /** A tick of the 1MHz line: the timers, and what the keyboard and the CRTC provide. */
    method TickAll(level: Option<bool>, ca2Low: bool)
      modifies this
      ensures Now() == After(old(Now()), Tick(level, ca2Low))
    {
      hide Raise, TickTimers, Fires1, Fires2, Edge;
      CheckTimers();
      if level.Some? {
        SetCa1(level.value);
      }
      if ca2Low {
        RaiseIrq(CA2);
      }
    }

    method SetCb1Level(level: bool)
      modifies this`irq, this`cb1
      ensures Now() == After(old(Now()), SetCb1(level))
    {
      hide Raise;
      if level == cb1 { return; }
      cb1 := level;
      if cb1 == control.cb1Rises {
        RaiseIrq(CB1);
      }
    }

    /** A write to port A serves CA1, and CA2 unless it is independent. */
    method WriteToPortA()
      modifies this`irq
      ensures Now() == After(old(Now()), WritePortA)
    {
      hide Clear;
      if control.ca2Cleared {
        ClearIrq(CA2);
      }
      ClearIrq(CA1);
    }

    method WriteTimer1CounterHigh(high: byte)
      modifies this`irq, this`timers
      ensures Now() == After(old(Now()), WriteCounterHigh(high))
    {
      hide Clear;
      timers := timers.(latch1 := high * 256 + timers.latch1 % 256);
      timers := timers.(count1 := timers.latch1);
      if control.pb7Out {
        timers := timers.(pb7 := false);
      }
      ClearIrq(T1);
    }

    method WriteTimer2CounterHigh(high: byte)
      modifies this`irq, this`timers
      ensures Now() == After(old(Now()), WriteTimer2High(high))
    {
      hide Clear;
      timers := timers.(count2 := high * 256 + timers.latch2 % 256);
      ClearIrq(T2);
    }
  }
}
