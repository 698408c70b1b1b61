// The processor tick by tick: the reset sequence, the poll of the interrupt line at SYNC, and the handler that
// the instruction register selects. Whole runs of ticks against memory refine runs of instructions.

module CpuTicks {
  import opened Bits
  import opened CpuAlu
  import opened Microcode
  import opened Opcodes
  import opened Instructions
  import opened CpuCycles

  /** The instruction register is the opcode and the number of its next handler. */
  datatype Cpu = Cpu(core: Core, opcode: byte, cycle: nat, resetting: bool, resetCycle: nat)

  /** The handlers from the nth on. */
  function Drop(s: Steps, n: nat): Steps {
    if n == 0 || s.End? then s else Drop(s.rest, n - 1)
  }

  function Handlers(opcode: byte): Steps {
    match Decode(opcode)
    case Some(i) => Program(i)
    case None => End
  }

  // ---------------------------------------------------------------- reset

  function ResetCore(c: Core, cycle: nat): Core {
    var r, b := c.regs, c.bus;
    match cycle
    case 1 => c.(regs := r.(sp := 0), bus := b.(rw := true))
    case 2 => c.(bus := b.(rw := true, address := Add16(0x100, r.sp)))
    case 3 => c.(bus := b.(rw := true, address := Add16(0x100 + r.sp, -1)))
    case 4 => c.(bus := b.(rw := true, address := Add16(0x100 + r.sp, -2)))
    case 5 => c.(regs := r.(sp := 0xfd), bus := b.(rw := true, address := 0xfffc))
    case 6 => c.(temp := b.data, bus := b.(rw := true, address := 0xfffd))
    case 7 =>
      var pc := Join(b.data, c.temp);
      c.(regs := r.(pc := pc), bus := b.(rw := true, address := pc, sync := true))
    case _ => c.(bus := b.(rw := true))
  }

  /** One tick of the reset sequence, once the reset line is high again. */
  function ResetTick(p: Cpu): Cpu {
    var n := Inc8(p.resetCycle);
    p.(core := ResetCore(p.core, n), resetting := n != 7, resetCycle := if n == 7 then 0 else n)
  }

  // ---------------------------------------------------------------- the poll at SYNC

  predicate TakesInterrupt(p: Cpu, irq: bool) {
    p.core.bus.sync && irq && !p.core.regs.p.i
  }

  /** Between instructions the opcode is taken from the bus, or a break from the interrupt line. */
  function Polled(p: Cpu, irq: bool): Cpu {
    if TakesInterrupt(p, irq) then p.(core := Interrupted(p.core), opcode := 0, cycle := 0)
    else if p.core.bus.sync then p.(core := Begun(p.core), opcode := p.core.bus.data, cycle := 0)
    else p
  }

  /** The next handler, if the opcode has one. */
  function Handled(p: Cpu): Option<Cpu> {
    match Drop(Handlers(p.opcode), p.cycle)
    case End => None
    case Then(s, _) =>
      Some(p.(core := Cycle(s, p.core), cycle := p.cycle + if Skips(s, p.core) then 2 else 1))
  }

  /** One tick; the machine stops at an opcode without handlers. */
  function Tick(p: Cpu, reset: bool, irq: bool): Option<Cpu> {
    if !reset then Some(p.(resetting := true, resetCycle := 0))
    else if p.resetting then Some(ResetTick(p))
    else Handled(Polled(p, irq))
  }

  // ---------------------------------------------------------------- runs

  /** The processor and its memory, or the machine stopped. */
  datatype System = Halted | Running(cpu: Cpu, memory: Memory)

  function Step(s: System, reset: bool, irq: bool): System {
    if s.Halted? then Halted
    else
      match Tick(s.cpu, reset, irq)
      case None => Halted
      case Some(p) => Running(p.(core := Answered(p.core, s.memory)), Stored(p.core, s.memory))
  }

  /** Ticks from the given time on, with the interrupt line as it is at each. */
  function Ticks(s: System, line: nat -> bool, from: nat, n: nat): System
    decreases n
  {
    if n == 0 then s else Ticks(Step(s, true, line(from)), line, from + 1, n - 1)
  }

  lemma {:induction false} TicksMore(s: System, line: nat -> bool, from: nat, a: nat, b: nat)
    ensures Ticks(s, line, from, a + b) == Ticks(Ticks(s, line, from, a), line, from + a, b)
    decreases a
  {
    hide Step;
    if a > 0 {
      TicksMore(Step(s, true, line(from)), line, from + 1, a - 1, b);
    }
  }

  /** Between instructions with the given registers and memory. */
  predicate Between(s: System, m: Machine) {
    s.Running? && !s.cpu.resetting && s.memory == m.memory && s.cpu.core.regs == m.regs &&
    AtSync(s.cpu.core, m.memory)
  }

  /** In the middle of an instruction: these handlers are still to run. */
  predicate Within(p: Cpu, steps: Steps) {
    !p.resetting && !p.core.bus.sync && Drop(Handlers(p.opcode), p.cycle) == steps
  }

  lemma {:induction false} DropNext(s: Steps, n: nat)
    requires Drop(s, n).Then?
    ensures Drop(s, n + 1) == Drop(s, n).rest
  {
    if n > 0 {
      DropNext(s.rest, n - 1);
    }
  }

  /** The ticks of an instruction are its handlers: they end where those do, and reach no SYNC before. */
  lemma {:induction false} TicksFinish(p: Cpu, m: Memory, steps: Steps, line: nat -> bool, from: nat, n: nat)
    requires Within(p, steps)
    requires Finish(steps, p.core, m, n).Done?
    ensures var o := Finish(steps, p.core, m, n);
            n < o.cycles &&
            var s := Ticks(Running(p, m), line, from, o.cycles - n);
            s.Running? && s.cpu.core == o.core && s.memory == o.memory && !s.cpu.resetting
    ensures forall k | 0 < k < Finish(steps, p.core, m, n).cycles - n ::
              var s := Ticks(Running(p, m), line, from, k);
              s.Running? && !s.cpu.core.bus.sync
    decreases steps
  {
    hide Do, Skips, Handlers;
    var s, next := steps.step, Step(Running(p, m), true, line(from));
    var c', m' := Answered(Cycle(s, p.core), m), Stored(Cycle(s, p.core), m);
    assert next == Running(p.(core := c', cycle := p.cycle + if Skips(s, p.core) then 2 else 1), m');
    if !c'.bus.sync {
      DropNext(Handlers(p.opcode), p.cycle);
      var rest := steps.rest;
      if Skips(s, p.core) && rest.Then? {
        DropNext(Handlers(p.opcode), p.cycle + 1);
        rest := rest.rest;
      }
      TicksFinish(next.cpu, m', rest, line, from + 1, n + 1);
    }
  }

  /** An opcode without handlers stops the machine at its SYNC. */
  lemma UndocumentedHalts(s: System, m: Machine, line: nat -> bool, from: nat)
    requires Between(s, m) && Decode(Peek(m.memory, m.regs.pc)).None? && (line(from) ==> m.regs.p.i)
    ensures Ticks(s, line, from, 1).Halted?
  {
  }

  lemma PolledWithin(p: Cpu, irq: bool)
    requires p.core.bus.sync && !p.resetting
    ensures var q := Polled(p, irq); Within(q, Handlers(q.opcode)) && Polled(q, irq) == q
  {
  }

  /** A tick at SYNC is the poll and then a tick of the handlers that it selected. */
  lemma {:induction false} PollFirst(p: Cpu, m: Memory, line: nat -> bool, from: nat, n: nat)
    requires p.core.bus.sync && !p.resetting && 0 < n
    ensures Ticks(Running(p, m), line, from, n) == Ticks(Running(Polled(p, line(from)), m), line, from, n)
  {
    hide Handled;
    PolledWithin(p, line(from));
  }

  /**
   * From SYNC, an instruction that no interrupt displaces: after exactly its cycles, and no sooner, the processor
   * is at SYNC again with what the instruction leaves, whatever the interrupt line does meanwhile.
   */
  lemma InstructionTicks(s: System, m: Machine, line: nat -> bool, from: nat)
    requires Between(s, m) && Decode(Peek(m.memory, m.regs.pc)).Some? && (line(from) ==> m.regs.p.i)
    ensures var i := Decode(Peek(m.memory, m.regs.pc)).value;
            Between(Ticks(s, line, from, Cycles(i, m)), Execute(i, m)) &&
            forall k | 0 < k < Cycles(i, m) :: var t := Ticks(s, line, from, k); t.Running? && !t.cpu.core.bus.sync
  {
    hide Finish, Program, Execute, Cycles, Ticks, Polled, Decode, Encode;
    var c, i := s.cpu.core, Decode(Peek(m.memory, m.regs.pc)).value;
    HandlersRefine(i, c, m.memory);
    SevenCycles(i, m);
    var p := Polled(s.cpu, line(from));
    PolledIs(s.cpu, line(from));
    PolledWithin(s.cpu, line(from));
    TicksFinish(p, m.memory, Program(i), line, from, 0);
    forall k | 0 < k <= Cycles(i, m) ensures Ticks(s, line, from, k) == Ticks(Running(p, m.memory), line, from, k) {
      PollFirst(s.cpu, m.memory, line, from, k);
    }
  }

  lemma PolledIs(p: Cpu, irq: bool)
    requires p.core.bus.sync
    ensures !TakesInterrupt(p, irq) ==>
              Polled(p, irq) == p.(core := Begun(p.core), opcode := p.core.bus.data, cycle := 0)
    ensures TakesInterrupt(p, irq) ==> Polled(p, irq) == p.(core := Interrupted(p.core), opcode := 0, cycle := 0)
  {
  }

  lemma BreakHandlers()
    ensures Handlers(0) == Program(Brk)
  {
  }

  /** From SYNC with the interrupt line high and interrupts enabled: seven cycles enter the interrupt. */
  lemma InterruptTicks(s: System, m: Machine, line: nat -> bool, from: nat)
    requires Between(s, m) && line(from) && !m.regs.p.i
    ensures Between(Ticks(s, line, from, 7), Interrupt(m))
    ensures forall k | 0 < k < 7 :: var t := Ticks(s, line, from, k); t.Running? && !t.cpu.core.bus.sync
  {
    hide Finish, Program, Interrupt, Ticks, Polled, Handlers;
    InterruptEnds(s.cpu.core, m.memory);
    var p := Polled(s.cpu, line(from));
    PolledIs(s.cpu, line(from));
    PolledWithin(s.cpu, line(from));
    BreakHandlers();
    TicksFinish(p, m.memory, Program(Brk), line, from, 0);
    forall k | 0 < k <= 7 ensures Ticks(s, line, from, k) == Ticks(Running(p, m.memory), line, from, k) {
      PollFirst(s.cpu, m.memory, line, from, k);
    }
  }

  // ---------------------------------------------------------------- runs of instructions

  /** The machine between instructions and the number of ticks that brought it there. */
  datatype Point = Point(m: Machine, at: nat)

  /** One instruction, or the entry to an interrupt where the line is high and interrupts are enabled. */
  function NextPoint(x: Point, line: nat -> bool): Option<Point> {
    if line(x.at) && !x.m.regs.p.i then Some(Point(Interrupt(x.m), x.at + 7))
    else
      match Decode(Peek(x.m.memory, x.m.regs.pc))
      case Some(i) => Some(Point(Execute(i, x.m), x.at + Cycles(i, x.m)))
      case None => None
  }

  function Points(x: Point, line: nat -> bool, n: nat): Option<Point>
    decreases n
  {
    if n == 0 then Some(x)
    else
      match NextPoint(x, line)
      case Some(y) => Points(y, line, n - 1)
      case None => None
  }

  lemma PointTicks(s: System, x: Point, line: nat -> bool)
    requires Between(s, x.m) && NextPoint(x, line).Some?
    ensures var y := NextPoint(x, line).value;
            x.at + 2 <= y.at <= x.at + 7 && Between(Ticks(s, line, x.at, y.at - x.at), y.m)
  {
    hide Interrupt, Execute, Cycles, Decode, Encode, Ticks, Between;
    if line(x.at) && !x.m.regs.p.i {
      InterruptTicks(s, x.m, line, x.at);
    } else {
      InstructionTicks(s, x.m, line, x.at);
      SevenCycles(Decode(Peek(x.m.memory, x.m.regs.pc)).value, x.m);
    }
  }

  /**
   * Whole runs: for any number of instructions and interrupts, the ticks between SYNCs add up to the run of the
   * instructions, two to seven ticks for each.
   */
  lemma {:induction false} RunsRefine(s: System, x: Point, line: nat -> bool, n: nat)
    requires Between(s, x.m) && Points(x, line, n).Some?
    ensures var y := Points(x, line, n).value;
            x.at + 2 * n <= y.at <= x.at + 7 * n && Between(Ticks(s, line, x.at, y.at - x.at), y.m)
    decreases n
  {
    hide NextPoint, Between, Step;
    if n > 0 {
      var y := NextPoint(x, line).value;
      PointTicks(s, x, line);
      var t := Ticks(s, line, x.at, y.at - x.at);
      RunsRefine(t, y, line, n - 1);
      TicksMore(s, line, x.at, y.at - x.at, Points(x, line, n).value.at - y.at);
    }
  }

  // ---------------------------------------------------------------- reset

  /** The first ticks of the reset sequence read nothing that is used; the last three read the vector. */
  lemma ResetBegins(p: Cpu, m: Memory, line: nat -> bool, from: nat)
    requires p.resetting && p.resetCycle == 0
    ensures var s := Ticks(Running(p, m), line, from, 4);
            && s.Running? && s.cpu.resetting && s.cpu.resetCycle == 4 && s.memory == m
            && s.cpu.core.regs == p.core.regs.(sp := 0) && s.cpu.core.servicing == p.core.servicing
  {
    hide Peek;
    var s1 := Step(Running(p, m), true, line(from));
    var s2 := Step(s1, true, line(from + 1));
    var s3 := Step(s2, true, line(from + 2));
    var s4 := Step(s3, true, line(from + 3));
    hide Step;
    assert Ticks(s4, line, from + 4, 0) == s4;
  }

  lemma ResetReadsVector(p: Cpu, m: Memory, line: nat -> bool, from: nat)
    requires p.resetting && p.resetCycle == 4
    ensures var s, pc := Ticks(Running(p, m), line, from, 3), Word(m, 0xfffc, 0xfffd);
            && s.Running? && !s.cpu.resetting && s.memory == m
            && s.cpu.core.bus == Pins(pc, Peek(m, pc), true, true)
            && s.cpu.core.regs == p.core.regs.(sp := 0xfd, pc := pc) && s.cpu.core.servicing == p.core.servicing
  {
    hide Peek;
    var s1 := Step(Running(p, m), true, line(from));
    var s2 := Step(s1, true, line(from + 1));
    var s3 := Step(s2, true, line(from + 2));
    hide Step;
    assert Ticks(s3, line, from + 3, 0) == s3;
  }

  /** What the reset leaves: the word at FFFC in PC, FD in SP, and the other registers and flags as they were. */
  function Restarted(r: Regs, m: Memory): Machine {
    Machine(r.(sp := 0xfd, pc := Word(m, 0xfffc, 0xfffd)), m)
  }

  /**
   * Seven ticks after the reset line rises the processor is between instructions with what the reset leaves, if and
   * only if the reset did not come while an interrupt was being entered: that it was is not among what is cleared.
   */
  lemma ResetFollowsVector(p: Cpu, m: Memory, line: nat -> bool, from: nat)
    requires p.resetting && p.resetCycle == 0
    ensures var s, x := Ticks(Running(p, m), line, from, 7), Restarted(p.core.regs, m);
            && s.Running? && !s.cpu.resetting && s.memory == m && s.cpu.core.bus.sync && s.cpu.core.regs == x.regs
            && (Between(s, x) <==> !p.core.servicing)
  {
    hide Step, Peek, Ticks;
    TicksMore(Running(p, m), line, from, 4, 3);
    ResetBegins(p, m, line, from);
    ResetReadsVector(Ticks(Running(p, m), line, from, 4).cpu, m, line, from + 4);
  }

  /** From reset on: the vector, then any number of instructions and interrupts. */
  lemma ResetThenRuns(p: Cpu, m: Memory, line: nat -> bool, from: nat, n: nat)
    requires p.resetting && p.resetCycle == 0 && !p.core.servicing
    requires Points(Point(Restarted(p.core.regs, m), from + 7), line, n).Some?
    ensures var y := Points(Point(Restarted(p.core.regs, m), from + 7), line, n).value;
            && from + 7 + 2 * n <= y.at <= from + 7 + 7 * n
            && Between(Ticks(Running(p, m), line, from, y.at - from), y.m)
  {
    hide Between, Ticks, Points, Restarted, Step;
    var x := Point(Restarted(p.core.regs, m), from + 7);
    ResetFollowsVector(p, m, line, from);
    RunsRefine(Ticks(Running(p, m), line, from, 7), x, line, n);
    TicksMore(Running(p, m), line, from, 7, Points(x, line, n).value.at - x.at);
  }

  lemma EntryTick(p: Cpu)
    requires p.opcode == 0 && p.cycle == 0
    ensures Handled(p).Some? && Handled(p).value.core.servicing == p.core.servicing
  {
    BreakBegins();
    hide Handlers, Program;
  }

  lemma BreakBegins()
    ensures Handlers(0).Then? && Handlers(0).step == PeekNext
  {
    BreakHandlers();
    hide Handlers;
  }

  /** A reset during the ticks of an interrupt's entry comes while it is being entered. */
  lemma ResetDuringEntry(s: System, m: Machine, line: nat -> bool, from: nat, irq: bool)
    requires Between(s, m) && line(from) && !m.regs.p.i
    ensures var t := Step(Ticks(s, line, from, 1), false, irq);
            t.Running? && t.cpu.resetting && t.cpu.resetCycle == 0 && t.cpu.core.servicing
  {
    hide Peek, Handled, Handlers;
    EntryTick(Polled(s.cpu, line(from)));
    var t := Step(s, true, line(from));
    assert Ticks(t, line, from + 1, 0) == t;
  }
}
