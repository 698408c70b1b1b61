// Stepping the board by one instruction: it always ends, within seven of the longest cycles, and it executes exactly
// the instruction, with what the devices answer as part of its memory.

module Stepping {
  import opened Bits
  import opened CpuAlu
  import opened Microcode
  import opened Opcodes
  import opened Instructions
  import opened CpuCycles
  import CpuTicks
  import Clocks
  import opened Board

  // ---------------------------------------------------------------- instructions end

  predicate AlwaysFetches(s: Microcode.Step) {
    s.Operate? || s.OperateInner? || s.FetchNext? || s.PullFlags? || s.JumpTo? || s.BranchFar?
  }

  /** Handlers of which the last fetches, whatever is on the bus, and none passes over the last. */
  predicate Ending(steps: Steps) {
    steps.Then? && (steps.rest.End? ==> AlwaysFetches(steps.step)) && (steps.rest.Then? ==> Ending(steps.rest)) &&
    (steps.step.AbsoluteIndexed? ==> steps.rest.Then? && steps.rest.rest.Then?)
  }

  function Count(steps: Steps): nat {
    if steps.End? then 0 else 1 + Count(steps.rest)
  }

  lemma Leads(s: Microcode.Step, rest: Steps)
    requires Ending(rest) && (s.AbsoluteIndexed? ==> rest.rest.Then?)
    ensures Ending(Then(s, rest)) && Count(Then(s, rest)) == 1 + Count(rest)
  {
  }

  lemma Last(s: Microcode.Step)
    requires AlwaysFetches(s)
    ensures Ending(Then(s, End)) && Count(Then(s, End)) == 1
  {
    assert Count(End) == 0;
  }

  lemma RouteEnds(mode: Mode, put: Put, rest: Steps)
    requires Ending(rest)
    ensures Ending(Route(mode, put, rest)) && Route(mode, put, rest).step == FetchOperand
    ensures Count(Route(mode, put, rest)) <= Count(rest) +
              if mode.Zero? || mode.ZeroX? || mode.ZeroY? || mode.Absolute? || mode.AbsoluteX? then 4 else 5
  {
    hide Ending, Count;
    match mode
    case Immediate =>
      Leads(FetchOperand, rest);
    case Zero =>
      Leads(ZeroPage(put), rest);
      Leads(FetchOperand, Then(ZeroPage(put), rest));
    case ZeroX => ZeroIndexedEnds(IndexX, put, rest);
    case ZeroY => ZeroIndexedEnds(IndexY, put, rest);
    case Absolute =>
      Leads(AbsoluteAt(put), rest);
      Leads(FetchLow, Then(AbsoluteAt(put), rest));
      Leads(FetchOperand, Then(FetchLow, Then(AbsoluteAt(put), rest)));
    case AbsoluteX => AbsoluteIndexedEnds(IndexX, put, rest);
    case AbsoluteY => AbsoluteIndexedEnds(IndexY, put, rest);
    case IndirectX =>
      var at := Then(PointerAt(put), rest);
      Leads(PointerAt(put), rest);
      Leads(PointerXHigh, at);
      Leads(PointerX, Then(PointerXHigh, at));
      Leads(ZeroPageKeep, Then(PointerX, Then(PointerXHigh, at)));
      Leads(FetchOperand, Then(ZeroPageKeep, Then(PointerX, Then(PointerXHigh, at))));
    case IndirectY =>
      var indexed := IndexedEnds(IndexY, put, rest);
      Leads(PointerYHigh, indexed);
      Leads(ZeroPageKeep, Then(PointerYHigh, indexed));
      Leads(FetchOperand, Then(ZeroPageKeep, Then(PointerYHigh, indexed)));
  }

  lemma ZeroIndexedEnds(i: Index, put: Put, rest: Steps)
    requires Ending(rest)
    ensures var steps := Then(FetchOperand, Then(ZeroPageKeep, Then(ZeroPageIndexed(i, put), rest)));
            Ending(steps) && Count(steps) == 3 + Count(rest)
  {
    hide Ending, Count;
    Leads(ZeroPageIndexed(i, put), rest);
    Leads(ZeroPageKeep, Then(ZeroPageIndexed(i, put), rest));
    Leads(FetchOperand, Then(ZeroPageKeep, Then(ZeroPageIndexed(i, put), rest)));
  }

  lemma IndexedEnds(i: Index, put: Put, rest: Steps) returns (steps: Steps)
    requires Ending(rest)
    ensures steps == Then(AbsoluteIndexed(i, put.Nothing?), Then(AddIndex(i, put), rest))
    ensures Ending(steps) && Count(steps) == 2 + Count(rest)
  {
    Leads(AddIndex(i, put), rest);
    Leads(AbsoluteIndexed(i, put.Nothing?), Then(AddIndex(i, put), rest));
    steps := Then(AbsoluteIndexed(i, put.Nothing?), Then(AddIndex(i, put), rest));
  }

  lemma AbsoluteIndexedEnds(i: Index, put: Put, rest: Steps)
    requires Ending(rest)
    ensures var steps := Then(FetchOperand, Then(FetchLow,
                           Then(AbsoluteIndexed(i, put.Nothing?), Then(AddIndex(i, put), rest))));
            Ending(steps) && Count(steps) == 4 + Count(rest)
  {
    hide Ending, Count;
    var indexed := IndexedEnds(i, put, rest);
    Leads(FetchLow, indexed);
    Leads(FetchOperand, Then(FetchLow, indexed));
  }

  lemma ChangeTail(m: Modifier) returns (steps: Steps)
    ensures steps == Then(WriteBack, Then(WriteModified(m), Then(FetchNext, End)))
    ensures Ending(steps) && Count(steps) == 3
  {
    Last(FetchNext);
    Leads(WriteModified(m), Then(FetchNext, End));
    Leads(WriteBack, Then(WriteModified(m), Then(FetchNext, End)));
    steps := Then(WriteBack, Then(WriteModified(m), Then(FetchNext, End)));
  }

  /** Three plain handlers before others, and three that end an instruction. */
  lemma ThreeLead(a: Microcode.Step, b: Microcode.Step, c: Microcode.Step, rest: Steps)
    requires Ending(rest) && !a.AbsoluteIndexed? && !b.AbsoluteIndexed? && !c.AbsoluteIndexed?
    ensures var steps := Then(a, Then(b, Then(c, rest))); Ending(steps) && Count(steps) == 3 + Count(rest)
  {
    hide Ending, Count;
    Leads(c, rest);
    Leads(b, Then(c, rest));
    Leads(a, Then(b, Then(c, rest)));
  }

  lemma ThreeEnd(a: Microcode.Step, b: Microcode.Step, c: Microcode.Step)
    requires AlwaysFetches(c) && !a.AbsoluteIndexed? && !b.AbsoluteIndexed?
    ensures var steps := Then(a, Then(b, Then(c, End))); Ending(steps) && Count(steps) == 3
  {
    hide Ending, Count;
    Last(c);
    Leads(b, Then(c, End));
    Leads(a, Then(b, Then(c, End)));
  }

  lemma ProgramEnds(i: Instruction)
    requires Documented(i)
    ensures Ending(Program(i)) && Count(Program(i)) <= 7
    ensures Program(i).step == FetchOperand || Program(i).step == PeekNext
  {
    match i
    case Read(mode, op) =>
      Last(Operate(op));
      RouteEnds(mode, Nothing, Then(Operate(op), End));
    case Store(mode, put) =>
      Last(FetchNext);
      RouteEnds(mode, put, Then(FetchNext, End));
    case Change(mode, m) =>
      var tail := ChangeTail(m);
      RouteEnds(mode, Nothing, tail);
    case _ =>
      ChainedProgram(i);
  }

  lemma ChainedProgram(i: Instruction)
    requires !i.Read? && !i.Store? && !i.Change?
    ensures Ending(Program(i)) && Count(Program(i)) <= 7
  {
    hide Ending, Count;
    match i
    case Inner(op) =>
      Last(OperateInner(op));
      Leads(PeekNext, Then(OperateInner(op), End));
    case Branch(flag, sense) =>
      ThreeEnd(BranchTest(flag, sense), BranchNear, BranchFar);
      Leads(FetchOperand, Then(BranchTest(flag, sense), Then(BranchNear, Then(BranchFar, End))));
    case Pha => ThreeEnd(PeekNext, PushA, FetchNext);
    case Php => ThreeEnd(PeekNext, PushP, FetchNext);
    case Pla =>
      ThreeEnd(StackPeek, StackUp, Operate(Lda));
      Leads(PeekNext, Program(i).rest);
    case Plp =>
      ThreeEnd(StackPeek, StackUp, PullFlags);
      Leads(PeekNext, Program(i).rest);
    case Jump => ThreeEnd(FetchOperand, FetchLow, JumpTo);
    case JumpIndirect =>
      ThreeEnd(IndirectLow, IndirectHigh, JumpTo);
      Leads(FetchLow, Program(i).rest.rest);
      Leads(FetchOperand, Program(i).rest);
    case Jsr =>
      ThreeEnd(PushPcLow, PeekNext, JumpTo);
      ThreeLead(FetchOperand, StackPeekKeep, PushPcHigh, Program(i).rest.rest.rest);
    case Rts =>
      ThreeEnd(StackUpKeep, ReturnTo, FetchNext);
      ThreeLead(PeekNext, StackPeek, StackUp, Program(i).rest.rest.rest);
    case Rti =>
      ThreeEnd(StackUpFlags, StackUpKeep, JumpTo);
      ThreeLead(PeekNext, StackPeek, StackUp, Program(i).rest.rest.rest);
    case Brk =>
      ThreeEnd(BreakVectorLow, BreakVectorHigh, JumpTo);
      ThreeLead(BreakHigh, PushPcLow, BreakFlags, Program(i).rest.rest.rest.rest);
      Leads(PeekNext, Program(i).rest);
  }

  // ---------------------------------------------------------------- the ticks still to come

  /** How many ticks the processor's next edge is away. */
  function ToEdge(c: Clocks.State): nat
    requires Clocks.WellFormed(c)
  {
    if c.left > 0 then 8 * c.left + (if c.ticks < 8 then 8 else 16) - c.ticks
    else (if c.ticks < 8 then 8 else 24) - c.ticks
  }

  lemma EdgeNears(c: Clocks.State)
    requires Clocks.Sound(c)
    ensures Clocks.WellFormed(c) && Clocks.WellFormed(Clocks.Tick(c))
    ensures 1 <= ToEdge(c) && (Clocks.CpuEdge(Clocks.Tick(c)) <==> ToEdge(c) == 1)
    ensures ToEdge(c) > 1 ==> ToEdge(Clocks.Tick(c)) == ToEdge(c) - 1
  {
    hide Clocks.Sound, Clocks.Tick, Clocks.CpuEdge;
    SoundTick(c);
    Clocks.TickIsSound(c);
    HeldParity(c);
    SoundTick(Clocks.Tick(c));
    Clocks.TickMoves(c);
    Nears(c, Clocks.Tick(c));
  }

  lemma SoundTick(c: Clocks.State)
    requires Clocks.Sound(c)
    ensures Clocks.WellFormed(c)
  {
  }

  lemma Nears(c: Clocks.State, d: Clocks.State)
    requires Clocks.WellFormed(c) && Clocks.WellFormed(d) && c.ticks < 16
    requires c.left > 0 ==> (c.left % 2 == 1) == (8 <= c.ticks)
    requires d.ticks == (if c.ticks == 15 then 0 else c.ticks + 1)
    requires d.left == if d.ticks % 8 == 0 && c.left > 0 then c.left - 1 else c.left
    ensures 1 <= ToEdge(c) && (d.ticks == 8 && d.left == 0 <==> ToEdge(c) == 1)
    ensures ToEdge(c) > 1 ==> ToEdge(d) == ToEdge(c) - 1
  {
    hide Clocks.WellFormed;
  }

  lemma HeldParity(c: Clocks.State)
    requires Clocks.Sound(c)
    ensures c.ticks < 16 && (c.left > 0 ==> (c.left % 2 == 1) == (8 <= c.ticks))
    ensures var d := Clocks.Tick(c); Clocks.AtEdge(d) <==> Clocks.Sound(d) && d.ticks == 8 && d.left == 0
  {
  }

  /** The handlers that an instruction in progress has left; for one about to begin, the most after its first. */
  function HandlersLeft(p: CpuTicks.Cpu): nat {
    if p.core.bus.sync then 7 else Count(CpuTicks.Drop(CpuTicks.Handlers(p.opcode), p.cycle))
  }

  /** Between instructions, or within one that will end. */
  predicate Stepping(p: CpuTicks.Cpu) {
    !p.resetting &&
    (p.core.bus.sync || Ending(CpuTicks.Drop(CpuTicks.Handlers(p.opcode), p.cycle)))
  }

  /** A tick of the processor takes one handler at least from those left, and the last handler fetches. */
  lemma HandlerTaken(p: CpuTicks.Cpu)
    requires !p.core.bus.sync && Stepping(p)
    ensures var q := CpuTicks.Handled(p);
            q.Some? && !q.value.resetting && Stepping(q.value) &&
            (!q.value.core.bus.sync ==> 1 <= HandlersLeft(q.value) < HandlersLeft(p))
  {
    hide CpuTicks.Handlers, CpuTicks.Drop, Do, Skips, CpuCycles.Cycle, Ending, Count, AlwaysFetches;
    var all := CpuTicks.Handlers(p.opcode);
    var steps := CpuTicks.Drop(all, p.cycle);
    StepsLeft(steps);
    CpuTicks.DropNext(all, p.cycle);
    if steps.rest.Then? {
      CpuTicks.DropNext(all, p.cycle + 1);
    }
    LastFetches(steps.step, p.core);
  }

  lemma StepsLeft(steps: Steps)
    requires Ending(steps)
    ensures steps.Then? && (if steps.rest.End? then AlwaysFetches(steps.step) else Ending(steps.rest))
    ensures Count(steps) == 1 + Count(steps.rest) && (steps.rest.Then? ==> 1 <= Count(steps.rest))
    ensures steps.step.AbsoluteIndexed? ==>
              Ending(steps.rest.rest) && 1 <= Count(steps.rest.rest) && Count(steps.rest) == 1 + Count(steps.rest.rest)
  {
    hide AlwaysFetches;
  }

  lemma LastFetches(s: Microcode.Step, c: Core)
    ensures AlwaysFetches(s) ==> CpuCycles.Cycle(s, c).bus.sync
    ensures !s.AbsoluteIndexed? ==> !Skips(s, c)
  {
  }

  lemma FirstKeepsSync(s: Microcode.Step, c: Core)
    requires s == FetchOperand || s == PeekNext
    ensures CpuCycles.Cycle(s, c).bus.sync == c.bus.sync
  {
  }

  predicate Inside(s: State) {
    s.State? && Clocks.Sound(s.clock) && Stepping(s.cpu)
  }

  /** At most how many ticks are left to the end of the instruction in progress, or of the one to begin. */
  function Budget(s: State): nat
    requires Inside(s)
  {
    StepsCount(s.cpu);
    48 * (HandlersLeft(s.cpu) - 1) + ToEdge(s.clock)
  }

  lemma StepsCount(p: CpuTicks.Cpu)
    requires Stepping(p)
    ensures 1 <= HandlersLeft(p)
  {
  }

  /** The poll at SYNC leaves at most six handlers after its first, or it stops the machine. */
  lemma PollTakes(p: CpuTicks.Cpu, irq: bool)
    requires p.core.bus.sync && !p.resetting
    ensures var q := CpuTicks.Tick(p, true, irq);
            q.Some? ==> Stepping(q.value) && !q.value.core.bus.sync && HandlersLeft(q.value) <= 6
  {
    var polled := CpuTicks.Polled(p, irq);
    PollBegins(p, irq);
    if Decode(polled.opcode).Some? {
      hide CpuTicks.Polled, CpuTicks.Handled, Ending, Count, Program, Documented;
      var i := Decode(polled.opcode).value;
      ProgramEnds(i);
      FromTheTop(polled, Program(i));
      HandlerTaken(polled);
      FirstTaken(polled, Program(i));
    }
  }

  lemma PollBegins(p: CpuTicks.Cpu, irq: bool)
    requires p.core.bus.sync && !p.resetting
    ensures var q := CpuTicks.Polled(p, irq);
            !q.core.bus.sync && q.cycle == 0 && !q.resetting && CpuTicks.Tick(p, true, irq) == CpuTicks.Handled(q)
    ensures Decode(CpuTicks.Polled(p, irq).opcode).None? ==> CpuTicks.Handled(CpuTicks.Polled(p, irq)).None?
  {
    hide Decode;
  }

  lemma FromTheTop(p: CpuTicks.Cpu, steps: Steps)
    requires p.cycle == 0 && CpuTicks.Handlers(p.opcode) == steps && Ending(steps) && !p.resetting
    requires !p.core.bus.sync
    ensures Stepping(p) && HandlersLeft(p) == Count(steps)
  {
    hide CpuTicks.Handlers;
  }

  lemma FirstTaken(p: CpuTicks.Cpu, steps: Steps)
    requires p.cycle == 0 && CpuTicks.Handlers(p.opcode) == steps && steps.Then? && !p.core.bus.sync
    requires steps.step == FetchOperand || steps.step == PeekNext
    ensures CpuTicks.Handled(p).Some? && !CpuTicks.Handled(p).value.core.bus.sync
  {
    hide CpuTicks.Handlers;
    FirstKeepsSync(steps.step, p.core);
    hide CpuCycles.Cycle, Skips;
  }

  /** The accesses within a tick leave the processor where it is in its instruction. */
  lemma AccessKeepsPlace(s: State, reply: seq<Access> -> byte)
    requires s.State?
    ensures var t := AccessPart(s, reply);
            t.State? && t.clock == s.clock && t.cpu == s.cpu.(core := t.cpu.core) &&
            t.cpu.core.bus.sync == s.cpu.core.bus.sync && t.cpu.core.regs == s.cpu.core.regs &&
            t.cpu.core.bus.address == s.cpu.core.bus.address && t.cpu.core.bus.rw == s.cpu.core.bus.rw
  {
  }

  /** A tick of the board spends some of the budget, reaches SYNC, or stops the machine. */
  lemma TickSpends(s: State, reply: seq<Access> -> byte, irq: bool)
    requires Inside(s)
    ensures var t := Tick(s, reply, irq);
            t.State? ==>
              Inside(t) && (Budget(t) < Budget(s) || (t.cpu.core.bus.sync && !s.cpu.core.bus.sync))
  {
    hide CpuTicks.Tick, CpuTicks.Drop, CpuTicks.Handlers, AccessPart, Clocks.Sound, Clocks.Tick, Clocks.CpuEdge, Ending,
         Count, ToEdge, Stepping, HandlersLeft;
    EdgeNears(s.clock);
    var c := Clocks.Tick(s.clock);
    Clocks.TickIsSound(s.clock);
    StepsCount(s.cpu);
    if Clocks.CpuEdge(c) {
      var u := CpuPart(s.(clock := c), irq);
      if u.State? {
        Clocks.StretchIsSound(c);
        AfterEdge(c);
        AfterEdge(Clocks.BeginStretch(c));
        EdgeSpends(s.cpu, irq);
        AccessKeepsPlace(u, reply);
        SamePlace(u.cpu, AccessPart(u, reply).cpu);
      }
    } else {
      AccessKeepsPlace(s.(clock := c), reply);
      SamePlace(s.cpu, AccessPart(s.(clock := c), reply).cpu);
    }
  }

  lemma AfterEdge(c: Clocks.State)
    requires Clocks.Sound(c)
    ensures Clocks.WellFormed(c) && (c.ticks == 8 && c.left <= 5 ==> ToEdge(c) <= 48)
  {
  }

  lemma SamePlace(p: CpuTicks.Cpu, q: CpuTicks.Cpu)
    requires q == p.(core := q.core) && q.core.bus.sync == p.core.bus.sync
    ensures Stepping(q) == Stepping(p) && HandlersLeft(q) == HandlersLeft(p)
  {
    hide Ending, Count;
  }

  lemma EdgeSpends(p: CpuTicks.Cpu, irq: bool)
    requires Stepping(p)
    ensures var q := CpuTicks.Tick(p, true, irq);
            q.Some? ==>
              Stepping(q.value) &&
              (if p.core.bus.sync then !q.value.core.bus.sync && HandlersLeft(q.value) <= 6
               else q.value.core.bus.sync || HandlersLeft(q.value) < HandlersLeft(p))
    ensures p.core.bus.sync ==> HandlersLeft(p) == 7
  {
    if p.core.bus.sync {
      PollTakes(p, irq);
    } else {
      HandlerTaken(p);
      hide CpuTicks.Handled;
    }
  }

  // ---------------------------------------------------------------- the two loops of a step

  function Next(x: Progress, reply: seq<Access> -> byte, line: nat -> bool): Progress
    requires x.state.State? ==> Clocks.WellFormed(x.state.clock)
  {
    Progress(Tick(x.state, reply, line(x.at)), x.at + 1)
  }

  predicate Ready(x: Progress) {
    x.state.State? ==> Inside(x.state)
  }

  function TicksLeft(x: Progress): nat
    requires Ready(x)
  {
    if x.state.Stopped? then 0 else Budget(x.state)
  }

  /** Tick while the opcode is still being fetched. */
  function Drain(x: Progress, reply: seq<Access> -> byte, line: nat -> bool): (y: Progress)
    requires Ready(x)
    ensures Ready(y) && x.at <= y.at && y.at + TicksLeft(y) <= x.at + TicksLeft(x)
    ensures y.state.State? ==> !y.state.cpu.core.bus.sync
    decreases TicksLeft(x)
  {
    if x.state.Stopped? || !x.state.cpu.core.bus.sync then x
    else
      TickSpends(x.state, reply, line(x.at));
      Drain(Next(x, reply, line), reply, line)
  }

  /** Tick, and again until the next opcode is being fetched. */
  function Body(x: Progress, reply: seq<Access> -> byte, line: nat -> bool): (y: Progress)
    requires Ready(x) && (x.state.State? ==> !x.state.cpu.core.bus.sync)
    ensures Ready(y) && y.at <= x.at + 1 + TicksLeft(x)
    ensures x.state.State? ==> y.at <= x.at + TicksLeft(x)
    ensures y.state.State? ==> y.state.cpu.core.bus.sync
    decreases TicksLeft(x)
  {
    if x.state.Stopped? then x
    else
      TickSpends(x.state, reply, line(x.at));
      var y := Next(x, reply, line);
      if y.state.Stopped? || y.state.cpu.core.bus.sync then y else Body(y, reply, line)
  }

  function StepInstruction(x: Progress, reply: seq<Access> -> byte, line: nat -> bool): Progress
    requires Ready(x)
  {
    Body(Drain(x, reply, line), reply, line)
  }

  /**
   * A step ends: from the start of the cycle that fetches an opcode, after at most seven cycles of the longest kind
   * the next opcode is being fetched, or an undocumented one has stopped the machine.
   */
  lemma StepEnds(x: Progress, reply: seq<Access> -> byte, line: nat -> bool)
    requires CycleStarts(x.state) && x.state.cpu.core.bus.sync && !x.state.cpu.resetting
    ensures Ready(x)
    ensures var y := StepInstruction(x, reply, line);
            y.at <= x.at + 7 * 48 && (y.state.State? ==> y.state.cpu.core.bus.sync)
  {
    AfterEdge(x.state.clock);
  }

  // ---------------------------------------------------------------- a step is an instruction

  /** Memory as the processor sees it: the board's, and in the pages of the 1MHz bus what is answered there. */
  predicate Overlays(o: Memory, m: Memory) {
    && o.ram == m.ram <= 0xfc00 && |o.cells| == |m.cells|
    && forall at: word | Mapped(at) && at < |m.cells| :: o.cells[at] == m.cells[at]
  }

  /** The processor and that memory, with the cycle's access made. */
  function Seen(s: State, o: Memory): CpuTicks.System {
    if s.Stopped? then CpuTicks.Halted
    else CpuTicks.Running(s.cpu.(core := Answered(s.cpu.core, o)), Stored(s.cpu.core, o))
  }

  /** A read outside memory in this cycle finds on the bus what the overlay has there. */
  predicate Answers(s: State, reply: seq<Access> -> byte, o: Memory) {
    s.State? && !Mapped(s.cpu.core.bus.address) && s.cpu.core.bus.rw ==>
      Accessed(Sides(s), reply).core.bus.data == Peek(o, s.cpu.core.bus.address)
  }

  lemma AccessIsSeen(x: Side, reply: seq<Access> -> byte, o: Memory)
    requires Overlays(o, x.memory)
    requires !Mapped(x.core.bus.address) && x.core.bus.rw ==>
               Accessed(x, reply).core.bus.data == Peek(o, x.core.bus.address)
    ensures var y := Accessed(x, reply); y.core == Answered(x.core, o) && Overlays(Stored(x.core, o), y.memory)
  {
  }

  lemma CycleIsStep(s: State, reply: seq<Access> -> byte, irq: bool, o: Memory)
    requires CycleStarts(s) && Overlays(o, s.memory) && Answers(s, reply, o)
    ensures Clocks.WellFormed(s.clock)
    ensures var t, o' := Board.Cycle(s, reply, irq), Stored(s.cpu.core, o);
            (t.State? ==> Overlays(o', t.memory)) && Seen(t, o') == CpuTicks.Step(Seen(s, o), true, irq)
  {
    hide CpuTicks.Tick, Clocks.After, Overlays, Accessed, Peek, Poke;
    Clocks.StartsWell(s.clock);
    AccessIsSeen(Sides(s), reply, o);
  }

  lemma LineIsIdle(s: CpuTicks.System, a: bool, b: bool)
    requires s.Running? && !s.cpu.core.bus.sync
    ensures CpuTicks.Step(s, true, a) == CpuTicks.Step(s, true, b)
  {
    hide CpuTicks.Handled;
  }

  lemma OneMoreStep(s: CpuTicks.System, line: nat -> bool, n: nat)
    ensures CpuTicks.Ticks(s, line, 0, n + 1) == CpuTicks.Step(CpuTicks.Ticks(s, line, 0, n), true, line(n))
  {
    hide CpuTicks.Step;
    CpuTicks.TicksMore(s, line, 0, n, 1);
    var t := CpuTicks.Ticks(s, line, 0, n);
    assert CpuTicks.Ticks(t, line, n, 1) == CpuTicks.Step(t, true, line(n));
  }

  /** The interrupt line at the edge that ends a cycle. */
  function LineAtEnd(x: Progress, line: nat -> bool): bool
    requires x.state.State?
  {
    line(x.at + Clocks.CycleTicks(x.state.clock) - 1)
  }

  /** One cycle more, at the end of a run of them. */
  lemma {:induction false} LastCycle(x: Progress, reply: seq<Access> -> byte, line: nat -> bool, k: nat)
    requires CycleStarts(x.state) && RunCycles(x, reply, line, k).state.State?
    ensures var y := RunCycles(x, reply, line, k);
            CycleStarts(y.state) && Clocks.WellFormed(y.state.clock) &&
            RunCycles(x, reply, line, k + 1) == NextCycle(y, reply, line)
    decreases k
  {
    hide NextCycle, CycleStarts;
    CycleKeeps(x, reply, line);
    if k == 0 {
      OneCycle(x, reply, line);
    } else {
      StoppedStays(NextCycle(x, reply, line), reply, line, k - 1);
      LastCycle(NextCycle(x, reply, line), reply, line, k - 1);
    }
  }

  lemma OneCycle(x: Progress, reply: seq<Access> -> byte, line: nat -> bool)
    requires CycleStarts(x.state)
    ensures Clocks.WellFormed(x.state.clock) && RunCycles(x, reply, line, 0) == x
    ensures RunCycles(x, reply, line, 1) == NextCycle(x, reply, line)
  {
    CycleKeeps(x, reply, line);
    hide NextCycle, CycleStarts;
  }

  /** What is answered outside memory in the first n cycles is what the overlay has there. */
  predicate Replied(x: Progress, reply: seq<Access> -> byte, line: nat -> bool, n: nat, o: Memory)
    requires CycleStarts(x.state)
  {
    forall k | 0 <= k < n :: Answers(RunCycles(x, reply, line, k).state, reply, o)
  }

  predicate Midway(s: CpuTicks.System, line: nat -> bool, n: nat) {
    forall k | 0 < k < n :: var t := CpuTicks.Ticks(s, line, 0, k); t.Running? && !t.cpu.core.bus.sync
  }

  /** The same read-only memory. */
  predicate SameRom(o: Memory, m: Memory) {
    o.ram == m.ram && forall at: word | m.ram <= at :: Peek(o, at) == Peek(m, at)
  }

  /** The board in its state is the processor and its memory, seen through an overlay. */
  ghost predicate SeenAs(s: State, t: CpuTicks.System, m: Memory) {
    exists o :: Overlay(s, t, m, o)
  }

  predicate Overlay(s: State, t: CpuTicks.System, m: Memory, o: Memory) {
    t == Seen(s, o) && SameRom(o, m) && (s.State? ==> Overlays(o, s.memory))
  }

  lemma SameAnswers(s: State, reply: seq<Access> -> byte, o: Memory, m: Memory)
    requires s.State? && Overlays(o, s.memory) && SameRom(o, m) && Answers(s, reply, m)
    ensures Answers(s, reply, o)
  {
    hide Accessed, Peek;
  }

  lemma StoredSameRom(c: Core, o: Memory, m: Memory)
    requires SameRom(o, m)
    ensures SameRom(Stored(c, o), m)
  {
  }

  /** A cycle of the board is a tick of the processor that is seen in it. */
  lemma SeenStep(s: State, reply: seq<Access> -> byte, irq: bool, t: CpuTicks.System, m: Memory)
    requires CycleStarts(s) && SeenAs(s, t, m) && Answers(s, reply, m)
    ensures Clocks.WellFormed(s.clock) && SeenAs(Board.Cycle(s, reply, irq), CpuTicks.Step(t, true, irq), m)
  {
    var o :| Overlay(s, t, m, o);
    hide CpuTicks.Step, Board.Cycle, Seen, SameRom, Overlays, Answers, Stored;
    SameAnswers(s, reply, o, m);
    CycleIsStep(s, reply, irq, o);
    StoredSameRom(s.cpu.core, o, m);
    assert Overlay(Board.Cycle(s, reply, irq), CpuTicks.Step(t, true, irq), m, Stored(s.cpu.core, o));
  }

  lemma SeenRuns(s: State, t: CpuTicks.System, m: Memory)
    requires SeenAs(s, t, m)
    ensures t.Running? <==> s.State?
    ensures s.State? ==> t.cpu.core.bus.sync == s.cpu.core.bus.sync
  {
  }

  lemma NextTick(x: Progress, reply: seq<Access> -> byte, line: nat -> bool, k: nat, s: CpuTicks.System,
                 steady: nat -> bool, m: Memory)
    requires CycleStarts(x.state) && RunCycles(x, reply, line, k).state.State?
    requires Answers(RunCycles(x, reply, line, k).state, reply, m)
    requires SeenAs(RunCycles(x, reply, line, k).state, CpuTicks.Ticks(s, steady, 0, k), m)
    requires var y := RunCycles(x, reply, line, k); LineAtEnd(y, line) == steady(k) || !y.state.cpu.core.bus.sync
    ensures SeenAs(RunCycles(x, reply, line, k + 1).state, CpuTicks.Ticks(s, steady, 0, k + 1), m)
  {
    hide CpuTicks.Ticks, CpuTicks.Step, RunCycles, Board.Cycle, SeenAs, Answers, CycleStarts;
    var y, t := RunCycles(x, reply, line, k), CpuTicks.Ticks(s, steady, 0, k);
    LastCycle(x, reply, line, k);
    SeenStep(y.state, reply, LineAtEnd(y, line), t, m);
    OneMoreStep(s, steady, k);
    SeenRuns(y.state, t, m);
    if !y.state.cpu.core.bus.sync {
      LineIsIdle(t, LineAtEnd(y, line), steady(k));
    }
  }

  /** The board at the start of an instruction of n cycles, the line as it stays and the devices as they answer. */
  ghost predicate Begins(x: Progress, reply: seq<Access> -> byte, line: nat -> bool, n: nat, steady: nat -> bool,
                         s: CpuTicks.System, m: Memory) {
    && CycleStarts(x.state) && Replied(x, reply, line, n, m) && SeenAs(x.state, s, m)
    && steady(0) == LineAtEnd(x, line) && Midway(s, steady, n)
  }

  /** After so many cycles the board is where the processor's ticks against memory alone are. */
  ghost predicate Follows(x: Progress, reply: seq<Access> -> byte, line: nat -> bool, k: nat, steady: nat -> bool,
                          s: CpuTicks.System, m: Memory) {
    CycleStarts(x.state) && SeenAs(RunCycles(x, reply, line, k).state, CpuTicks.Ticks(s, steady, 0, k), m)
  }

  lemma FollowsAtStart(x: Progress, reply: seq<Access> -> byte, line: nat -> bool, n: nat, steady: nat -> bool,
                       s: CpuTicks.System, m: Memory)
    requires Begins(x, reply, line, n, steady, s, m)
    ensures Follows(x, reply, line, 0, steady, s, m)
  {
    hide CycleStarts, CpuTicks.Ticks, SeenAs, RunCycles, Midway, Replied, LineAtEnd;
    NoSteps(s, steady);
    OneCycle(x, reply, line);
  }

  /** One cycle more within an instruction. */
  lemma FollowsOn(x: Progress, reply: seq<Access> -> byte, line: nat -> bool, n: nat, k: nat, steady: nat -> bool,
                  s: CpuTicks.System, m: Memory)
    requires Begins(x, reply, line, n, steady, s, m) && k < n && Follows(x, reply, line, k, steady, s, m)
    ensures Follows(x, reply, line, k + 1, steady, s, m)
  {
    StartsSound(x.state);
    SeenRuns(x.state, s, m);
    hide CycleStarts, CpuTicks.Ticks, Answers, SeenAs, RunCycles, Midway, Replied, LineAtEnd;
    NoSteps(s, steady);
    OneCycle(x, reply, line);
    SeenRuns(RunCycles(x, reply, line, k).state, CpuTicks.Ticks(s, steady, 0, k), m);
    if k > 0 {
      MidwayAt(s, steady, n, k);
    }
    AllAnswer(x, reply, line, n, k, m);
    NextTick(x, reply, line, k, s, steady, m);
  }

  /** Cycle for cycle, the board's processor makes the ticks that it makes against memory alone. */
  lemma {:induction false} CyclesAreTicks(x: Progress, reply: seq<Access> -> byte, line: nat -> bool, n: nat, k: nat,
                                          steady: nat -> bool, s: CpuTicks.System, m: Memory)
    requires Begins(x, reply, line, n, steady, s, m) && k <= n
    ensures Follows(x, reply, line, k, steady, s, m)
    decreases k
  {
    hide Begins, Follows;
    if k == 0 {
      FollowsAtStart(x, reply, line, n, steady, s, m);
    } else {
      CyclesAreTicks(x, reply, line, n, k - 1, steady, s, m);
      FollowsOn(x, reply, line, n, k - 1, steady, s, m);
    }
  }

  lemma NoSteps(s: CpuTicks.System, line: nat -> bool)
    ensures CpuTicks.Ticks(s, line, 0, 0) == s
  {
  }

  lemma MidwayAt(s: CpuTicks.System, line: nat -> bool, n: nat, k: nat)
    requires Midway(s, line, n) && 0 < k < n
    ensures var t := CpuTicks.Ticks(s, line, 0, k); t.Running? && !t.cpu.core.bus.sync
  {
  }

  lemma AllAnswer(x: Progress, reply: seq<Access> -> byte, line: nat -> bool, n: nat, k: nat, m: Memory)
    requires CycleStarts(x.state) && Replied(x, reply, line, n, m) && k < n
    ensures Answers(RunCycles(x, reply, line, k).state, reply, m)
  {
  }

  /** The board is between instructions, with the machine's registers and with its memory as an overlay. */
  predicate BetweenOnBoard(s: State, m: Machine) {
    s.State? && Overlays(m.memory, s.memory) && CpuTicks.Between(Seen(s, m.memory), m)
  }

  lemma StartsSeen(s: State, m: Machine)
    requires BetweenOnBoard(s, m)
    ensures SeenAs(s, Seen(s, m.memory), m.memory) && s.cpu.core.bus.sync
  {
    hide Overlays, Peek;
    assert Overlay(s, Seen(s, m.memory), m.memory, m.memory);
  }

  lemma EndsSeen(s: State, t: CpuTicks.System, m: Memory, e: Machine)
    requires SeenAs(s, t, m) && CpuTicks.Between(t, e)
    ensures BetweenOnBoard(s, e)
  {
    hide Overlays, SameRom, Peek, Poke;
    var o :| Overlay(s, t, m, o);
  }

  /**
   * Within the cycles of an instruction the board does what the instruction does against memory with the devices'
   * answers in it, and the opcode of the next is being fetched when they are over but not before.
   */
  lemma InstructionOnBoard(x: Progress, m: Machine, reply: seq<Access> -> byte, line: nat -> bool)
    requires CycleStarts(x.state) && BetweenOnBoard(x.state, m)
    requires Decode(Peek(m.memory, m.regs.pc)).Some? && (LineAtEnd(x, line) ==> m.regs.p.i)
    requires Replied(x, reply, line, CpuCyclesOf(m), m.memory)
    ensures BetweenOnBoard(RunCycles(x, reply, line, CpuCyclesOf(m)).state,
                           Execute(Decode(Peek(m.memory, m.regs.pc)).value, m))
    ensures forall k | 0 < k < CpuCyclesOf(m) ::
              var t := RunCycles(x, reply, line, k).state; t.State? && !t.cpu.core.bus.sync
  {
    hide CpuTicks.Ticks, CpuTicks.Between, RunCycles, Seen, Execute, CycleStarts, Answers, Decode, Encode, SeenAs,
      Overlays, Replied;
    var n, s := CpuCyclesOf(m), Seen(x.state, m.memory);
    StartsSound(x.state);
    var irq := LineAtEnd(x, line);
    var steady: nat -> bool := _ => irq;
    StartsSeen(x.state, m);
    CpuTicks.InstructionTicks(s, m, steady, 0);
    forall k | 0 < k <= n
      ensures SeenAs(RunCycles(x, reply, line, k).state, CpuTicks.Ticks(s, steady, 0, k), m.memory)
    {
      CyclesAreTicks(x, reply, line, n, k, steady, s, m.memory);
    }
    SevenCycles(Decode(Peek(m.memory, m.regs.pc)).value, m);
    EndsSeen(RunCycles(x, reply, line, n).state, CpuTicks.Ticks(s, steady, 0, n), m.memory,
             Execute(Decode(Peek(m.memory, m.regs.pc)).value, m));
    forall k | 0 < k < n
      ensures var t := RunCycles(x, reply, line, k).state; t.State? && !t.cpu.core.bus.sync
    {
      SeenRuns(RunCycles(x, reply, line, k).state, CpuTicks.Ticks(s, steady, 0, k), m.memory);
    }
  }

  /** The cycles of the instruction at the program counter. */
  function CpuCyclesOf(m: Machine): nat {
    match Decode(Peek(m.memory, m.regs.pc))
    case Some(i) => Instructions.Cycles(i, m)
    case None => 0
  }

  // ---------------------------------------------------------------- the loops over a cycle

  /** SYNC stays as it is while the cycle lasts. */
  lemma SyncLasts(x: Progress, reply: seq<Access> -> byte, line: nat -> bool, n: nat)
    requires CycleStarts(x.state) && n < Clocks.CycleTicks(x.state.clock)
    ensures Sound(x.state)
    ensures var t := Ticks(x.state, reply, line, x.at, n);
            t.State? && t.cpu.core.bus.sync == x.state.cpu.core.bus.sync && t.cpu.cycle == x.state.cpu.cycle &&
            t.cpu.opcode == x.state.cpu.opcode && t.cpu.resetting == x.state.cpu.resetting
  {
    StartsSound(x.state);
    hide Ticks, CycleStarts;
    CycleSoFar(x.state, reply, line, x.at, n);
  }

  function Later(x: Progress, reply: seq<Access> -> byte, line: nat -> bool, n: nat): Progress
    requires Sound(x.state)
  {
    Progress(Ticks(x.state, reply, line, x.at, n), x.at + n)
  }

  lemma OneLater(x: Progress, reply: seq<Access> -> byte, line: nat -> bool, n: nat)
    requires Sound(x.state) && 0 < n
    ensures Sound(Later(x, reply, line, n - 1).state)
    ensures Later(x, reply, line, n - 1).state.State? ==> Clocks.WellFormed(Later(x, reply, line, n - 1).state.clock)
    ensures Later(x, reply, line, n) == Next(Later(x, reply, line, n - 1), reply, line)
  {
    hide Tick, Sound;
    SoundIsWell(Later(x, reply, line, n - 1).state);
  }

  lemma SoundIsWell(s: State)
    requires Sound(s)
    ensures s.State? ==> Clocks.WellFormed(s.clock) && Clocks.Sound(s.clock)
  {
  }

  lemma InsideLasts(x: Progress, reply: seq<Access> -> byte, line: nat -> bool, n: nat)
    requires CycleStarts(x.state) && Inside(x.state) && n < Clocks.CycleTicks(x.state.clock)
    ensures Sound(x.state) && Inside(Later(x, reply, line, n).state)
  {
    hide Ticks, Ending, CpuTicks.Drop, CpuTicks.Handlers;
    SyncLasts(x, reply, line, n);
    SoundIsWell(Later(x, reply, line, n).state);
  }

  lemma {:induction false} DrainSkips(x: Progress, reply: seq<Access> -> byte, line: nat -> bool, n: nat)
    requires CycleStarts(x.state) && Inside(x.state) && x.state.cpu.core.bus.sync
    requires n <= Clocks.CycleTicks(x.state.clock)
    ensures Sound(x.state) && Ready(Later(x, reply, line, n))
    ensures Drain(x, reply, line) == Drain(Later(x, reply, line, n), reply, line)
  {
    hide Inside, Sound, Ticks, CycleStarts, Drain;
    StartsSound(x.state);
    if n == 0 {
      NoTicks(x.state, reply, line, x.at);
    } else {
      DrainSkips(x, reply, line, n - 1);
      var y := Later(x, reply, line, n - 1);
      InsideLasts(x, reply, line, n - 1);
      SyncLasts(x, reply, line, n - 1);
      OneLater(x, reply, line, n);
      DrainOnce(y, reply, line);
    }
  }

  lemma DrainOnce(y: Progress, reply: seq<Access> -> byte, line: nat -> bool)
    requires Inside(y.state) && y.state.cpu.core.bus.sync
    ensures Clocks.WellFormed(y.state.clock) && Ready(Next(y, reply, line))
    ensures Drain(y, reply, line) == Drain(Next(y, reply, line), reply, line)
  {
    TickSpends(y.state, reply, line(y.at));
    hide Tick, Budget;
  }

  lemma {:induction false} BodySkips(x: Progress, reply: seq<Access> -> byte, line: nat -> bool, n: nat)
    requires CycleStarts(x.state) && Inside(x.state) && !x.state.cpu.core.bus.sync
    requires n < Clocks.CycleTicks(x.state.clock)
    ensures Sound(x.state) && Inside(Later(x, reply, line, n).state)
    ensures !Later(x, reply, line, n).state.cpu.core.bus.sync
    ensures Body(x, reply, line) == Body(Later(x, reply, line, n), reply, line)
  {
    hide Inside, Sound, Ticks, CycleStarts, Body;
    StartsSound(x.state);
    InsideLasts(x, reply, line, n);
    SyncLasts(x, reply, line, n);
    if n == 0 {
      NoTicks(x.state, reply, line, x.at);
    } else {
      BodySkips(x, reply, line, n - 1);
      var y := Later(x, reply, line, n - 1);
      InsideLasts(x, reply, line, n - 1);
      OneLater(x, reply, line, n);
      BodyOnce(y, reply, line);
    }
  }

  lemma BodyOnce(y: Progress, reply: seq<Access> -> byte, line: nat -> bool)
    requires Inside(y.state) && !y.state.cpu.core.bus.sync
    ensures Clocks.WellFormed(y.state.clock) && Ready(Next(y, reply, line))
    ensures var z := Next(y, reply, line);
            Body(y, reply, line)
              == if z.state.Stopped? || z.state.cpu.core.bus.sync then z else Body(z, reply, line)
  {
    TickSpends(y.state, reply, line(y.at));
    hide Tick, Budget;
  }

  lemma CycleIsLater(x: Progress, reply: seq<Access> -> byte, line: nat -> bool)
    requires CycleStarts(x.state)
    ensures Sound(x.state) && Clocks.WellFormed(x.state.clock)
    ensures NextCycle(x, reply, line) == Later(x, reply, line, Clocks.CycleTicks(x.state.clock))
  {
    hide Ticks, Board.Cycle, CycleStarts, Sound;
    StartsSound(x.state);
    SoundIsWell(x.state);
    CycleIsExact(x.state, reply, line, x.at);
  }

  /** The loops see only the ends of cycles: draining ends with the cycle that it begins in. */
  lemma DrainIsCycle(x: Progress, reply: seq<Access> -> byte, line: nat -> bool)
    requires CycleStarts(x.state) && Inside(x.state) && x.state.cpu.core.bus.sync
    ensures Clocks.WellFormed(x.state.clock) && Ready(NextCycle(x, reply, line))
    ensures var y := NextCycle(x, reply, line);
            y.state.State? && !y.state.cpu.core.bus.sync ==> Drain(x, reply, line) == y
  {
    hide Inside, Sound, CycleStarts, Ticks, Later, Drain, NextCycle;
    StartsSound(x.state);
    CycleIsLater(x, reply, line);
    DrainSkips(x, reply, line, Clocks.CycleTicks(x.state.clock));
    DrainIsDone(NextCycle(x, reply, line), reply, line);
  }

  lemma DrainIsDone(y: Progress, reply: seq<Access> -> byte, line: nat -> bool)
    requires Ready(y)
    ensures y.state.State? && !y.state.cpu.core.bus.sync ==> Drain(y, reply, line) == y
  {
  }

  lemma BodyIsCycle(x: Progress, reply: seq<Access> -> byte, line: nat -> bool)
    requires CycleStarts(x.state) && Inside(x.state) && !x.state.cpu.core.bus.sync
    ensures Clocks.WellFormed(x.state.clock) && Ready(NextCycle(x, reply, line))
    ensures var y := NextCycle(x, reply, line);
            Body(x, reply, line) == if y.state.Stopped? || y.state.cpu.core.bus.sync then y else Body(y, reply, line)
  {
    hide Inside, Sound, CycleStarts, Ticks, Later, Body, NextCycle;
    StartsSound(x.state);
    var n := Clocks.CycleTicks(x.state.clock);
    CycleIsLater(x, reply, line);
    BodySkips(x, reply, line, n - 1);
    OneLater(x, reply, line, n);
    BodyOnce(Later(x, reply, line, n - 1), reply, line);
  }

  /** The body's loop over n cycles of which only the last ends at SYNC. */
  lemma {:induction false} BodyIsCycles(x: Progress, reply: seq<Access> -> byte, line: nat -> bool, n: nat)
    requires CycleStarts(x.state) && Inside(x.state) && !x.state.cpu.core.bus.sync && 0 < n
    requires forall k | 0 < k < n ::
               var t := RunCycles(x, reply, line, k).state; t.State? && !t.cpu.core.bus.sync
    requires var t := RunCycles(x, reply, line, n).state; t.State? && t.cpu.core.bus.sync
    ensures Body(x, reply, line) == RunCycles(x, reply, line, n)
    decreases n
  {
    hide Inside, CycleStarts, Body, NextCycle;
    BodyIsCycle(x, reply, line);
    CycleKeeps(x, reply, line);
    OneCycle(x, reply, line);
    var y := NextCycle(x, reply, line);
    if n > 1 {
      assert RunCycles(x, reply, line, 1) == y;
      ReadyIsInside(y);
      forall k | 0 < k < n - 1
        ensures var t := RunCycles(y, reply, line, k).state; t.State? && !t.cpu.core.bus.sync
      {
        assert RunCycles(x, reply, line, k + 1) == RunCycles(y, reply, line, k);
      }
      BodyIsCycles(y, reply, line, n - 1);
    }
  }

  lemma ReadyIsInside(x: Progress)
    requires Ready(x) && x.state.State?
    ensures Inside(x.state)
  {
  }

  /**
   * A step executes the instruction: where no interrupt displaces it, the step ends after exactly the instruction's
   * cycles with what it leaves in registers and memory, given what the devices answer in those cycles.
   */
  lemma StepExecutes(x: Progress, m: Machine, reply: seq<Access> -> byte, line: nat -> bool)
    requires CycleStarts(x.state) && Inside(x.state) && BetweenOnBoard(x.state, m)
    requires Decode(Peek(m.memory, m.regs.pc)).Some? && (LineAtEnd(x, line) ==> m.regs.p.i)
    requires Replied(x, reply, line, CpuCyclesOf(m), m.memory)
    ensures StepInstruction(x, reply, line) == RunCycles(x, reply, line, CpuCyclesOf(m))
    ensures BetweenOnBoard(StepInstruction(x, reply, line).state, Execute(Decode(Peek(m.memory, m.regs.pc)).value, m))
  {
    hide CpuTicks.Ticks, RunCycles, Seen, Execute, CycleStarts, Decode, Encode, Inside, Body, Drain, NextCycle,
      BetweenOnBoard, Replied;
    var n := CpuCyclesOf(m);
    SevenCycles(Decode(Peek(m.memory, m.regs.pc)).value, m);
    InstructionOnBoard(x, m, reply, line);
    StartsSeen(x.state, m);
    EndsAtSync(x.state, m);
    EndsAtSync(RunCycles(x, reply, line, n).state, Execute(Decode(Peek(m.memory, m.regs.pc)).value, m));
    OneCycle(x, reply, line);
    var y := NextCycle(x, reply, line);
    DrainIsCycle(x, reply, line);
    CycleKeeps(x, reply, line);
    ReadyIsInside(y);
    RestOfCycles(x, reply, line, n);
    BodyIsCycles(y, reply, line, n - 1);
  }

  lemma EndsAtSync(s: State, m: Machine)
    requires BetweenOnBoard(s, m)
    ensures s.State? && s.cpu.core.bus.sync
  {
    hide Overlays, Peek;
  }

  // ---------------------------------------------------------------- the devices' answers as memory

  /** This cycle reads outside memory. */
  predicate ReadsOutside(s: State) {
    s.State? && !Mapped(s.cpu.core.bus.address) && s.cpu.core.bus.rw
  }

  /** What it finds on the bus. */
  function Found(s: State, reply: seq<Access> -> byte): byte
    requires s.State?
  {
    Accessed(Sides(s), reply).core.bus.data
  }

  /** No address outside memory is read twice in the first n cycles with different answers. */
  predicate ReadsAgree(x: Progress, reply: seq<Access> -> byte, line: nat -> bool, n: nat)
    requires CycleStarts(x.state)
  {
    forall j, k | 0 <= j < k < n ::
      var s, t := RunCycles(x, reply, line, j).state, RunCycles(x, reply, line, k).state;
      ReadsOutside(s) && ReadsOutside(t) && s.cpu.core.bus.address == t.cpu.core.bus.address ==>
        Found(s, reply) == Found(t, reply)
  }

  /** The board's memory with the answers of the first n cycles in it. */
  function WithAnswers(x: Progress, reply: seq<Access> -> byte, line: nat -> bool, n: nat): (o: Memory)
    requires CycleStarts(x.state)
    ensures o.ram == x.state.memory.ram && |o.cells| == |x.state.memory.cells|
  {
    if n == 0 then x.state.memory
    else
      var o, s := WithAnswers(x, reply, line, n - 1), RunCycles(x, reply, line, n - 1).state;
      if ReadsOutside(s) && s.cpu.core.bus.address < |o.cells| then
        o.(cells := o.cells[s.cpu.core.bus.address := Found(s, reply)])
      else o
  }

  lemma {:induction false} AnswersOverlay(x: Progress, reply: seq<Access> -> byte, line: nat -> bool, n: nat)
    requires CycleStarts(x.state) && x.state.memory.ram <= 0xfc00
    ensures Overlays(WithAnswers(x, reply, line, n), x.state.memory)
  {
    hide RunCycles, Found, CycleStarts;
    if n > 0 {
      AnswersOverlay(x, reply, line, n - 1);
    }
  }

  /** The overlay of the answers has each of them, if no two disagree. */
  lemma {:induction false} AnswersAreThere(x: Progress, reply: seq<Access> -> byte, line: nat -> bool, n: nat, k: nat)
    requires CycleStarts(x.state) && ReadsAgree(x, reply, line, n) && k < n
    requires |x.state.memory.cells| == 0x10000
    ensures Answers(RunCycles(x, reply, line, k).state, reply, WithAnswers(x, reply, line, n))
    decreases n
  {
    hide RunCycles, CycleStarts, Accessed;
    if k < n - 1 {
      AnswersAreThere(x, reply, line, n - 1, k);
    }
  }

  /**
   * There is always such a memory: whatever a whole memory's board answers in the cycles to come, with no two reads of
   * an address outside memory answered differently, is replied by the memory with the answers in it.
   */
  lemma SomeOverlayReplies(x: Progress, reply: seq<Access> -> byte, line: nat -> bool, n: nat)
    requires CycleStarts(x.state) && ReadsAgree(x, reply, line, n)
    requires |x.state.memory.cells| == 0x10000 && x.state.memory.ram <= 0xfc00
    ensures var o := WithAnswers(x, reply, line, n); Overlays(o, x.state.memory) && Replied(x, reply, line, n, o)
  {
    hide RunCycles, CycleStarts, ReadsAgree, WithAnswers, Overlays, Answers;
    AnswersOverlay(x, reply, line, n);
    forall k | 0 <= k < n
      ensures Answers(RunCycles(x, reply, line, k).state, reply, WithAnswers(x, reply, line, n))
    {
      AnswersAreThere(x, reply, line, n, k);
    }
  }

  lemma RestOfCycles(x: Progress, reply: seq<Access> -> byte, line: nat -> bool, n: nat)
    requires CycleStarts(x.state) && 0 < n
    ensures Clocks.WellFormed(x.state.clock)
    ensures var y := NextCycle(x, reply, line);
            (y.state.State? ==> CycleStarts(y.state)) &&
            RunCycles(x, reply, line, n) == RunCycles(y, reply, line, n - 1) &&
            forall k | 0 < k < n - 1 :: RunCycles(y, reply, line, k) == RunCycles(x, reply, line, k + 1)
  {
    CycleKeeps(x, reply, line);
    hide NextCycle, CycleStarts;
  }
}
