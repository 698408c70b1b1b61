// The board's tick: the clock, the processor on its own line's rising edge, memory on the 4MHz line's, and the
// devices in SHEILA on the 1MHz line's falling edge. Each cycle of the processor makes its access exactly once.

module Board {
  import opened Bits
  import opened Microcode
  import opened Instructions
  import opened CpuCycles
  import opened CpuTicks
  import Clocks

  /** One tick of a device in SHEILA: where, whether the bus was writing, and the data on it. */
  datatype Access = Access(address: word, write: bool, data: byte)

  datatype State = Stopped | State(clock: Clocks.State, cpu: Cpu, memory: Memory, log: seq<Access>)

  /** Pages FC to FE are neither memory nor ROM. */
  predicate Mapped(at: word) {
    at < 0xfc00 || 0xff00 <= at
  }

  /** The 6845, the ACIA, the serial ULA, the two VIAs and the ADC. */
  predicate IsDevice(at: word) {
    0xfe00 <= at <= 0xfe01 || 0xfe08 <= at <= 0xfe0f || 0xfe10 <= at <= 0xfe1f ||
    0xfe40 <= at <= 0xfe4f || 0xfe60 <= at <= 0xfe6f || 0xfec0 <= at <= 0xfec2
  }

  /** FRED, JIM and every device in SHEILA are on the 1MHz bus. */
  predicate IsSlow(at: word) {
    0xfc00 <= at <= 0xfdff || IsDevice(at)
  }

  // ---------------------------------------------------------------- the parts of a tick

  /** What is on the bus and behind it. */
  datatype Side = Side(core: Core, memory: Memory, log: seq<Access>)

  function MemoryAccess(x: Side): Side {
    if Mapped(x.core.bus.address) then x.(core := Answered(x.core, x.memory), memory := Stored(x.core, x.memory))
    else x
  }

  /** A device answers a read with any function of the accesses made so far. */
  function DeviceAccess(x: Side, reply: seq<Access> -> byte): Side {
    var b := x.core.bus;
    if IsDevice(b.address) then
      var log := x.log + [Access(b.address, !b.rw, b.data)];
      x.(core := if b.rw then x.core.(bus := b.(data := reply(log))) else x.core, log := log)
    else x
  }

  function Sides(s: State): Side
    requires s.State?
  {
    Side(s.cpu.core, s.memory, s.log)
  }

  function WithSides(s: State, x: Side): State
    requires s.State?
  {
    State(s.clock, s.cpu.(core := x.core), x.memory, x.log)
  }

  /** The processor's edge: it ticks, and its new address may stretch the cycle that begins. */
  function CpuPart(s: State, irq: bool): State
    requires s.State?
  {
    match CpuTicks.Tick(s.cpu, true, irq)
    case None => Stopped
    case Some(p) =>
      s.(cpu := p, clock := if IsSlow(p.core.bus.address) then Clocks.BeginStretch(s.clock) else s.clock)
  }

  function AccessPart(s: State, reply: seq<Access> -> byte): State
    requires s.State?
  {
    var x := if Clocks.MemoryEdge(s.clock) && s.clock.now.c2 then MemoryAccess(Sides(s)) else Sides(s);
    var y := if Clocks.Falls1MHz(s.clock) then DeviceAccess(x, reply) else x;
    WithSides(s, y)
  }

  function Tick(s: State, reply: seq<Access> -> byte, irq: bool): State
    requires s.State? ==> Clocks.WellFormed(s.clock)
  {
    if s.Stopped? then Stopped
    else
      var t := s.(clock := Clocks.Tick(s.clock));
      var u := if Clocks.CpuEdge(t.clock) then CpuPart(t, irq) else t;
      if u.Stopped? then Stopped else AccessPart(u, reply)
  }

  // ---------------------------------------------------------------- one cycle of the processor

  predicate Sound(s: State) {
    s.State? ==> Clocks.Sound(s.clock)
  }

  /** The processor has just ticked: its address is on the bus and the cycle is stretched if that is slow. */
  predicate CycleStarts(s: State) {
    s.State? && Clocks.CycleStarts(s.clock) && (s.clock.left > 0 <==> IsSlow(s.cpu.core.bus.address))
  }

  lemma TickIsSound(s: State, reply: seq<Access> -> byte, irq: bool)
    requires Sound(s)
    ensures Sound(Tick(s, reply, irq))
  {
    if s.State? {
      Clocks.TickIsSound(s.clock);
      hide Clocks.Sound, Clocks.Tick, Clocks.WellFormed, CpuTicks.Tick, MemoryAccess, DeviceAccess;
      if Clocks.AtEdge(Clocks.Tick(s.clock)) {
        Clocks.StretchIsSound(Clocks.Tick(s.clock));
      }
    }
  }

  /** Ticks from the given time on, with the interrupt line as it is at each. */
  function Ticks(s: State, reply: seq<Access> -> byte, line: nat -> bool, from: nat, n: nat): (t: State)
    requires Sound(s)
    ensures Sound(t)
  {
    if n == 0 then s
    else
      TickIsSound(Ticks(s, reply, line, from, n - 1), reply, line(from + n - 1));
      Tick(Ticks(s, reply, line, from, n - 1), reply, line(from + n - 1))
  }

  /** From power-on, whatever the processor does to the clock, every tick leaves it sound. */
  lemma EveryRunIsSound(s: State, reply: seq<Access> -> byte, line: nat -> bool, from: nat, n: nat)
    requires s.State? && s.clock == Clocks.POWER_ON
    ensures Sound(s) && Sound(Ticks(s, reply, line, from, n))
  {
    Clocks.PowerOnIsSound();
  }

  /** What the cycle's one access makes of the bus, of memory and of the devices. */
  function Accessed(x: Side, reply: seq<Access> -> byte): Side {
    if Mapped(x.core.bus.address) then MemoryAccess(x) else DeviceAccess(x, reply)
  }

  /** The tick of the cycle at which its access is made: memory's, or the fall of the 1MHz line. */
  function AccessTick(s: State): nat
    requires s.State?
  {
    if Mapped(s.cpu.core.bus.address) then 4 else if s.clock.now.c1 then 8 else 24
  }

  /** Where each device's registers begin, and how many addresses answer for them. */
  datatype Device = Crtc | Acia | SerialUla | SystemVia | UserVia | Converter

  function Base(d: Device): word {
    match d
    case Crtc => 0xfe00
    case Acia => 0xfe08
    case SerialUla => 0xfe10
    case SystemVia => 0xfe40
    case UserVia => 0xfe60
    case Converter => 0xfec0
  }

  function Registers(d: Device): nat {
    match d
    case Crtc => 2
    case Acia => 8
    case Converter => 3
    case _ => 16
  }

  predicate Decodes(d: Device, at: word) {
    Base(d) <= at < Base(d) + Registers(d)
  }

  /** The device that answers, if any does; no other one would. */
  lemma OneDeviceAnswers(at: word)
    ensures IsDevice(at) <==> exists d :: Decodes(d, at)
    ensures forall d, e :: Decodes(d, at) && Decodes(e, at) ==> d == e
    ensures forall d :: Decodes(d, at) ==> at / 256 == 0xfe && !Mapped(at)
  {
    if IsDevice(at) {
      assert Decodes(Crtc, at) || Decodes(Acia, at) || Decodes(SerialUla, at) || Decodes(SystemVia, at)
             || Decodes(UserVia, at) || Decodes(Converter, at);
    }
  }

  /** By pages: FC, FD and FE are not mapped, and all of the first two and the devices of the third are slow. */
  lemma PagesAre(at: word)
    ensures Mapped(at) <==> at / 256 < 0xfc || at / 256 == 0xff
    ensures IsSlow(at) <==> at / 256 == 0xfc || at / 256 == 0xfd || exists d :: Decodes(d, at)
  {
    OneDeviceAnswers(at);
  }

  lemma MappedIsFast(at: word)
    ensures Mapped(at) ==> !IsSlow(at) && !IsDevice(at)
    ensures IsDevice(at) ==> IsSlow(at)
  {
  }

  lemma AccessKeepsAddress(x: Side, reply: seq<Access> -> byte)
    ensures Accessed(x, reply).core.bus.address == x.core.bus.address
    ensures Accessed(x, reply).core.bus.rw == x.core.bus.rw
  {
  }

  /** An access to memory made again changes nothing; nor does one that memory does not answer. */
  lemma AccessAgain(x: Side, reply: seq<Access> -> byte)
    ensures MemoryAccess(MemoryAccess(x)) == MemoryAccess(x)
    ensures !Mapped(x.core.bus.address) ==> MemoryAccess(x) == x
    ensures !IsDevice(x.core.bus.address) ==> DeviceAccess(x, reply) == x
  {
  }

  /** One tick within a cycle, by what the clock does in it. */
  lemma TickWithin(s: State, reply: seq<Access> -> byte, irq: bool)
    requires s.State? && Clocks.WellFormed(s.clock) && !Clocks.CpuEdge(Clocks.Tick(s.clock))
    ensures var c := Clocks.Tick(s.clock);
            var x := if Clocks.MemoryEdge(c) && c.now.c2 then MemoryAccess(Sides(s)) else Sides(s);
            Tick(s, reply, irq)
              == WithSides(s.(clock := c), if Clocks.Falls1MHz(c) then DeviceAccess(x, reply) else x)
  {
  }

  /** After n ticks of a cycle, short of its end, the access has been made or not. */
  lemma {:induction false} CycleSoFar(s: State, reply: seq<Access> -> byte, line: nat -> bool, from: nat, n: nat)
    requires CycleStarts(s) && n < Clocks.CycleTicks(s.clock)
    ensures var x := Sides(s);
            Ticks(s, reply, line, from, n)
              == WithSides(s.(clock := Clocks.After(s.clock, n)), if AccessTick(s) <= n then Accessed(x, reply) else x)
  {
    hide Accessed, Mapped, IsDevice, IsSlow, Tick, WithSides, Clocks.Tick, Clocks.CycleStarts, Clocks.Sound;
    Clocks.StartsWell(s.clock);
    if n == 0 {
      SidesBack(s);
    } else {
      CycleSoFar(s, reply, line, from, n - 1);
      var x := if AccessTick(s) <= n - 1 then Accessed(Sides(s), reply) else Sides(s);
      TickOfCycle(s, x, reply, line(from + n - 1), n);
    }
  }

  lemma SidesBack(s: State)
    requires s.State? && Clocks.WellFormed(s.clock)
    ensures WithSides(s.(clock := Clocks.After(s.clock, 0)), Sides(s)) == s
  {
  }

  /** The nth tick makes the access if it is the one to make it, and otherwise none or the same again. */
  lemma TickOfCycle(s: State, x: Side, reply: seq<Access> -> byte, irq: bool, n: nat)
    requires CycleStarts(s) && 0 < n < Clocks.CycleTicks(s.clock)
    requires x == if AccessTick(s) <= n - 1 then Accessed(Sides(s), reply) else Sides(s)
    ensures Tick(WithSides(s.(clock := Clocks.After(s.clock, n - 1)), x), reply, irq)
              == WithSides(s.(clock := Clocks.After(s.clock, n)),
                           if AccessTick(s) <= n then Accessed(Sides(s), reply) else Sides(s))
  {
    hide MemoryAccess, DeviceAccess, IsDevice, Mapped, Clocks.Sound, Clocks.After, Clocks.Tick, Clocks.CpuEdge, CpuPart;
    var c := s.clock;
    Clocks.StartsWell(c);
    Clocks.CycleLasts(c);
    Clocks.AfterTick(c, n);
    Clocks.MemoryEdges(c, n);
    if c.left > 0 {
      Clocks.OneFallAStretch(c);
    }
    MappedIsFast(s.cpu.core.bus.address);
    AccessAgain(Sides(s), reply);
    AccessAgain(Accessed(Sides(s), reply), reply);
    AccessKeepsAddress(Sides(s), reply);
    TickWithin(WithSides(s.(clock := Clocks.After(c, n - 1)), x), reply, irq);
  }

  /** One cycle of the processor: its access, and its next tick. */
  function Cycle(s: State, reply: seq<Access> -> byte, irq: bool): State
    requires s.State? && Clocks.WellFormed(s.clock)
  {
    CpuPart(WithSides(s.(clock := Clocks.After(s.clock, Clocks.CycleTicks(s.clock))), Accessed(Sides(s), reply)), irq)
  }

  /**
   * The board refines the processor's cycles: sixteen ticks, or 32 or 48 where the address is slow, make the access
   * once and tick the processor once, and leave the board at the start of a cycle.
   */
  lemma CycleIsExact(s: State, reply: seq<Access> -> byte, line: nat -> bool, from: nat)
    requires CycleStarts(s)
    ensures var n := Clocks.CycleTicks(s.clock);
            Ticks(s, reply, line, from, n) == Cycle(s, reply, line(from + n - 1)) &&
            (Ticks(s, reply, line, from, n).State? ==> CycleStarts(Ticks(s, reply, line, from, n)))
  {
    hide Accessed, Clocks.Sound, Clocks.After, Clocks.Tick, Clocks.CpuEdge, CpuTicks.Tick;
    var c, n := s.clock, Clocks.CycleTicks(s.clock);
    Clocks.StartsWell(c);
    CycleSoFar(s, reply, line, from, n - 1);
    AccessIsOver(s, reply);
    Clocks.CycleLasts(c);
    Clocks.AfterTick(c, n);
    Clocks.StretchIsSound(Clocks.After(c, n));
    NoAccessAtEdge(c);
    EdgeTick(WithSides(s.(clock := Clocks.After(c, n - 1)), Accessed(Sides(s), reply)), reply, line(from + n - 1));
  }

  lemma AccessIsOver(s: State, reply: seq<Access> -> byte)
    requires CycleStarts(s)
    ensures AccessTick(s) <= Clocks.CycleTicks(s.clock) - 1 || Accessed(Sides(s), reply) == Sides(s)
  {
  }

  /** At the processor's edge neither memory nor the 1MHz bus has one. */
  lemma NoAccessAtEdge(c: Clocks.State)
    requires Clocks.CycleStarts(c)
    ensures Clocks.WellFormed(c)
    ensures var d := Clocks.After(c, Clocks.CycleTicks(c));
            !(Clocks.MemoryEdge(d) && d.now.c2) && !Clocks.Falls1MHz(d)
  {
    hide Clocks.Sound, Clocks.After;
    Clocks.StartsWell(c);
    Clocks.MemoryEdges(c, Clocks.CycleTicks(c));
    if c.left > 0 {
      Clocks.OneFallAStretch(c);
    } else {
      Clocks.CycleGoes(c, 16);
      Clocks.CycleGoes(c, 15);
      Clocks.AfterPrev(c, 16);
    }
  }

  lemma EdgeTick(s: State, reply: seq<Access> -> byte, irq: bool)
    requires s.State? && Clocks.WellFormed(s.clock)
    requires var d := Clocks.Tick(s.clock);
             Clocks.CpuEdge(d) && !(Clocks.MemoryEdge(d) && d.now.c2) && !Clocks.Falls1MHz(d)
    ensures Tick(s, reply, irq) == CpuPart(s.(clock := Clocks.Tick(s.clock)), irq)
  {
    hide CpuTicks.Tick, Clocks.Tick;
  }

  // ---------------------------------------------------------------- runs of cycles

  /** What the processor asks of a device in this cycle: one access, or none. */
  function Request(s: State): seq<Access>
    requires s.State?
  {
    var b := s.cpu.core.bus;
    if IsDevice(b.address) then [Access(b.address, !b.rw, b.data)] else []
  }

  /**
   * Exactly once: in the course of a cycle its request reaches the device at one tick, neither before it nor again
   * after it, and no device hears of a cycle that is not for one.
   */
  lemma DeviceHearsOnce(s: State, reply: seq<Access> -> byte, line: nat -> bool, from: nat, n: nat)
    requires CycleStarts(s) && n < Clocks.CycleTicks(s.clock)
    ensures var t := Ticks(s, reply, line, from, n);
            t.State? && t.log == if AccessTick(s) <= n then s.log + Request(s) else s.log
    ensures Request(s) != [] ==> 0 < AccessTick(s) < Clocks.CycleTicks(s.clock)
  {
    hide Ticks;
    CycleSoFar(s, reply, line, from, n);
    MappedIsFast(s.cpu.core.bus.address);
  }

  datatype Progress = Progress(state: State, at: nat)

  function NextCycle(x: Progress, reply: seq<Access> -> byte, line: nat -> bool): Progress
    requires x.state.State? && Clocks.WellFormed(x.state.clock)
  {
    var n := Clocks.CycleTicks(x.state.clock);
    Progress(Cycle(x.state, reply, line(x.at + n - 1)), x.at + n)
  }

  lemma CycleKeeps(x: Progress, reply: seq<Access> -> byte, line: nat -> bool)
    requires CycleStarts(x.state)
    ensures Clocks.WellFormed(x.state.clock)
    ensures var y := NextCycle(x, reply, line);
            y.state.State? ==> CycleStarts(y.state) && y.state.log == x.state.log + Request(x.state)
  {
    hide Ticks, Cycle, Request, Clocks.CycleStarts;
    Clocks.StartsWell(x.state.clock);
    CycleIsExact(x.state, reply, line, x.at);
    CycleLog(x.state, reply, line(x.at + Clocks.CycleTicks(x.state.clock) - 1));
  }

  lemma CycleLog(s: State, reply: seq<Access> -> byte, irq: bool)
    requires s.State? && Clocks.WellFormed(s.clock)
    ensures Cycle(s, reply, irq).State? ==> Cycle(s, reply, irq).log == s.log + Request(s)
  {
    hide CpuTicks.Tick, Clocks.After;
    MappedIsFast(s.cpu.core.bus.address);
  }

  /** So many cycles of the processor, or as many as it takes to stop it. */
  function RunCycles(x: Progress, reply: seq<Access> -> byte, line: nat -> bool, m: nat): Progress
    requires x.state.State? ==> CycleStarts(x.state)
    decreases m
  {
    if m == 0 || x.state.Stopped? then x
    else
      CycleKeeps(x, reply, line);
      RunCycles(NextCycle(x, reply, line), reply, line, m - 1)
  }

  /** The requests of those cycles, in order. */
  function Requests(x: Progress, reply: seq<Access> -> byte, line: nat -> bool, m: nat): seq<Access>
    requires x.state.State? ==> CycleStarts(x.state)
    decreases m
  {
    if m == 0 || x.state.Stopped? then []
    else
      CycleKeeps(x, reply, line);
      Request(x.state) + Requests(NextCycle(x, reply, line), reply, line, m - 1)
  }

  lemma {:induction false} TicksMore(s: State, reply: seq<Access> -> byte, line: nat -> bool, from: nat, a: nat, b: nat)
    requires Sound(s)
    ensures Ticks(s, reply, line, from, a + b) == Ticks(Ticks(s, reply, line, from, a), reply, line, from + a, b)
  {
    hide Tick, Sound;
    if b > 0 {
      TicksMore(s, reply, line, from, a, b - 1);
      assert a + b - 1 == a + (b - 1) && from + a + b - 1 == from + (a + (b - 1));
    }
  }

  /**
   * Whole runs: the ticks of m cycles, between sixteen and 48 for each, tick the processor m times; and what the
   * devices have heard at the end is the processor's requests, each once and in order.
   */
  lemma {:induction false} EveryRunIsExact(x: Progress, reply: seq<Access> -> byte, line: nat -> bool, m: nat)
    requires CycleStarts(x.state) && RunCycles(x, reply, line, m).state.State?
    ensures var y := RunCycles(x, reply, line, m);
            x.at + 16 * m <= y.at <= x.at + 48 * m && CycleStarts(y.state) &&
            y.state == Ticks(x.state, reply, line, x.at, y.at - x.at) &&
            y.state.log == x.state.log + Requests(x, reply, line, m)
    decreases m
  {
    hide Ticks, Cycle, CycleStarts, Request, Sound;
    StartsSound(x.state);
    if m > 0 {
      CycleKeeps(x, reply, line);
      CycleIsExact(x.state, reply, line, x.at);
      var y := NextCycle(x, reply, line);
      StoppedStays(y, reply, line, m - 1);
      EveryRunIsExact(y, reply, line, m - 1);
      TicksMore(x.state, reply, line, x.at, y.at - x.at, RunCycles(x, reply, line, m).at - y.at);
    } else {
      NoTicks(x.state, reply, line, x.at);
    }
  }

  lemma NoTicks(s: State, reply: seq<Access> -> byte, line: nat -> bool, from: nat)
    requires Sound(s)
    ensures Ticks(s, reply, line, from, 0) == s
  {
  }

  lemma StartsSound(s: State)
    requires CycleStarts(s)
    ensures Sound(s) && s.State?
  {
  }

  lemma StoppedStays(x: Progress, reply: seq<Access> -> byte, line: nat -> bool, m: nat)
    requires x.state.State? ==> CycleStarts(x.state)
    ensures x.state.Stopped? ==> RunCycles(x, reply, line, m) == x
  {
  }
}
