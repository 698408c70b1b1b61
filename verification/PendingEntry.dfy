// What a reset leaves behind that came while an interrupt was being entered: the flag that an interrupt is being
// serviced. No instruction sees it but a BRK, which takes itself for the interrupt.

module PendingEntry {
  import opened Bits
  import opened CpuAlu
  import opened Microcode
  import opened Opcodes
  import opened Instructions
  import opened CpuCycles
  import opened CpuTicks
  import opened StackDiscipline

  /** Between instructions, an entry pending or not. */
  predicate BetweenWith(s: System, m: Machine, pending: bool) {
    s.Running? && Between(Running(s.cpu.(core := s.cpu.core.(servicing := false)), s.memory), m) &&
    s.cpu.core.servicing == pending
  }

  // ---------------------------------------------------------------- handlers that keep the flag

  predicate SeesEntry(s: Step) {
    s.BreakHigh? || s.BreakVectorLow?
  }

  /** No handler of these looks at the flag. */
  predicate Blind(steps: Steps) {
    steps.End? || (!SeesEntry(steps.step) && Blind(steps.rest))
  }

  function Pending(c: Core): Core {
    c.(servicing := true)
  }

  /** Handlers that put an address out. */
  predicate Addresses(s: Step) {
    s.PeekNext? || s.FetchOperand? || s.FetchLow? || s.ZeroPage? || s.ZeroPageKeep? || s.ZeroPageIndexed? ||
    s.AbsoluteAt? || s.AbsoluteIndexed? || s.AddIndex? || s.PointerX? || s.PointerXHigh? || s.PointerYHigh? ||
    s.PointerAt?
  }

  /** Handlers that work on a register or on memory, or branch. */
  predicate Works(s: Step) {
    s.Operate? || s.OperateInner? || s.WriteBack? || s.WriteModified? || s.FetchNext? || s.BranchTest? ||
    s.BranchNear? || s.BranchFar?
  }

  lemma AddressesBlindly(s: Step, c: Core)
    requires Addresses(s)
    ensures Do(s, Pending(c)) == Pending(Do(s, c)) && Do(s, c).servicing == c.servicing
  {
    hide Join, InPage;
  }

  lemma WorksBlindly(s: Step, c: Core)
    requires Works(s)
    ensures Do(s, Pending(c)) == Pending(Do(s, c)) && Do(s, c).servicing == c.servicing
  {
    hide Perform, PerformInner, Modify, InPage, Page, Holds, Offset;
  }

  lemma StacksBlindly(s: Step, c: Core)
    requires !SeesEntry(s) && !Addresses(s) && !Works(s)
    ensures Do(s, Pending(c)) == Pending(Do(s, c)) && Do(s, c).servicing == c.servicing
  {
    hide Join, Pack, Pulled, InPage;
  }

  lemma DoBlindly(s: Step, c: Core)
    requires !SeesEntry(s)
    ensures Do(s, Pending(c)) == Pending(Do(s, c)) && Do(s, c).servicing == c.servicing
  {
    hide Do, Pending;
    if Addresses(s) {
      AddressesBlindly(s, c);
    } else if Works(s) {
      WorksBlindly(s, c);
    } else {
      StacksBlindly(s, c);
    }
  }

  function PendingOutcome(o: Outcome): Outcome {
    if o.Done? then o.(core := Pending(o.core)) else o
  }

  lemma {:induction false} FinishBlindly(steps: Steps, c: Core, m: Memory, n: nat)
    requires Blind(steps)
    ensures Finish(steps, Pending(c), m, n) == PendingOutcome(Finish(steps, c, m, n))
    decreases steps
  {
    if steps.Then? {
      var s, rest := steps.step, steps.rest;
      var d := c.(bus := c.bus.(rw := true));
      DoBlindly(s, d);
      SkipsAlike(s, c);
      hide Do, Skips, Peek, Poke;
      var c', m' := Answered(Cycle(s, c), m), Stored(Cycle(s, c), m);
      if !c'.bus.sync {
        if Skips(s, c) && rest.Then? {
          FinishBlindly(rest.rest, c', m', n + 1);
        } else {
          FinishBlindly(rest, c', m', n + 1);
        }
      }
    }
  }

  lemma SkipsAlike(s: Step, c: Core)
    ensures Skips(s, Pending(c)) == Skips(s, c)
  {
  }

  lemma Two(a: Step, b: Step, rest: Steps)
    requires !SeesEntry(a) && !SeesEntry(b) && Blind(rest)
    ensures Blind(Then(a, Then(b, rest)))
  {
  }

  lemma RouteIsBlind(mode: Mode, put: Put, rest: Steps)
    requires Blind(rest)
    ensures Blind(Route(mode, put, rest))
  {
    match mode
    case Immediate =>
    case Zero =>
    case ZeroX => Two(ZeroPageKeep, ZeroPageIndexed(IndexX, put), rest);
    case ZeroY => Two(ZeroPageKeep, ZeroPageIndexed(IndexY, put), rest);
    case Absolute => Two(FetchLow, AbsoluteAt(put), rest);
    case AbsoluteX =>
      Two(AbsoluteIndexed(IndexX, put.Nothing?), AddIndex(IndexX, put), rest);
    case AbsoluteY =>
      Two(AbsoluteIndexed(IndexY, put.Nothing?), AddIndex(IndexY, put), rest);
    case IndirectX =>
      Two(PointerXHigh, PointerAt(put), rest);
    case IndirectY =>
      Two(AbsoluteIndexed(IndexY, put.Nothing?), AddIndex(IndexY, put), rest);
  }

  lemma ProgramIsBlind(i: Instruction)
    requires !i.Brk?
    ensures Blind(Program(i))
  {
    match i
    case Read(mode, op) => RouteIsBlind(mode, Nothing, Then(Operate(op), End));
    case Store(mode, put) => RouteIsBlind(mode, put, Then(FetchNext, End));
    case Change(mode, m) =>
      Two(WriteModified(m), FetchNext, End);
      RouteIsBlind(mode, Nothing, Then(WriteBack, Then(WriteModified(m), Then(FetchNext, End))));
    case Branch(_, _) => Two(BranchNear, BranchFar, End);
    case Pla => Two(StackUp, Operate(Lda), End);
    case Plp => Two(StackUp, PullFlags, End);
    case JumpIndirect =>
      Two(IndirectHigh, JumpTo, End);
      Two(FetchLow, IndirectLow, Then(IndirectHigh, Then(JumpTo, End)));
    case Jsr =>
      Two(PeekNext, JumpTo, End);
      Two(PushPcHigh, PushPcLow, Then(PeekNext, Then(JumpTo, End)));
    case Rts =>
      Two(ReturnTo, FetchNext, End);
      Two(StackUp, StackUpKeep, Then(ReturnTo, Then(FetchNext, End)));
    case Rti =>
      Two(StackUpKeep, JumpTo, End);
      Two(StackUp, StackUpFlags, Then(StackUpKeep, Then(JumpTo, End)));
    case Pha => Two(PushA, FetchNext, End);
    case Php => Two(PushP, FetchNext, End);
    case _ =>
  }

  // ---------------------------------------------------------------- one step with an entry pending

  lemma PendingBegins(c: Core)
    ensures Begun(Pending(c)) == Pending(Begun(c)) && Interrupted(Pending(c)) == Interrupted(c)
  {
  }

  /** Ticks from SYNC are those of the handlers that the poll selects. */
  lemma TicksOfPolled(s: System, line: nat -> bool, from: nat, i: Instruction)
    requires s.Running? && s.cpu.core.bus.sync && !s.cpu.resetting
    requires Handlers(Polled(s.cpu, line(from)).opcode) == Program(i)
    requires Finish(Program(i), Polled(s.cpu, line(from)).core, s.memory, 0).Done?
    requires Polled(s.cpu, line(from)).cycle == 0
    ensures var o := Finish(Program(i), Polled(s.cpu, line(from)).core, s.memory, 0);
            var t := Ticks(s, line, from, o.cycles);
            0 < o.cycles && t.Running? && t.cpu.core == o.core && t.memory == o.memory && !t.cpu.resetting
  {
    hide Finish, Program, Ticks, Polled, Handlers;
    var p := Polled(s.cpu, line(from));
    PolledWithin(s.cpu, line(from));
    TicksFinish(p, s.memory, Program(i), line, from, 0);
    PollFirst(s.cpu, s.memory, line, from, Finish(Program(i), p.core, s.memory, 0).cycles);
  }

  /** The machine without the flag. */
  function Settled(s: System): System
    requires s.Running?
  {
    Running(s.cpu.(core := s.cpu.core.(servicing := false)), s.memory)
  }

  lemma PendingAt(s: System, m: Machine)
    requires BetweenWith(s, m, true)
    ensures s.Running?
    ensures s.cpu.core == Pending(Settled(s).cpu.core) && AtSync(Settled(s).cpu.core, m.memory) && s.memory == m.memory
    ensures s.cpu.core.bus.sync && !s.cpu.resetting && s.cpu.core.bus.data == Peek(m.memory, m.regs.pc)
    ensures s.cpu.core.regs == m.regs && Before(Settled(s).cpu.core, m.memory) == m
  {
    hide Peek;
  }

  /** Any other instruction is executed as ever, and the entry stays pending. */
  lemma InstructionWithEntry(s: System, m: Machine, line: nat -> bool, from: nat, i: Instruction)
    requires BetweenWith(s, m, true) && Decode(Peek(m.memory, m.regs.pc)) == Some(i) && !i.Brk?
    requires line(from) ==> m.regs.p.i
    ensures BetweenWith(Ticks(s, line, from, Cycles(i, m)), Execute(i, m), true)
  {
    hide Finish, Program, Execute, Cycles, Ticks, Polled, Decode, Encode, Peek, Begun, Before, AtSync, BetweenWith;
    PendingAt(s, m);
    var c := Settled(s).cpu.core;
    PolledIs(s.cpu, line(from));
    PendingBegins(c);
    HandlersRefine(i, c, m.memory);
    ProgramIsBlind(i);
    FinishBlindly(Program(i), Begun(c), m.memory, 0);
    TicksOfPolled(s, line, from, i);
    EndsPending(Ticks(s, line, from, Cycles(i, m)), Finish(Program(i), Begun(c), m.memory, 0), Execute(i, m),
                Cycles(i, m));
  }

  lemma EndsPending(t: System, o: Outcome, m: Machine, cycles: nat)
    requires Ends(o, m, cycles)
    requires t.Running? && t.cpu.core == Pending(o.core) && t.memory == o.memory && !t.cpu.resetting
    ensures BetweenWith(t, m, true)
  {
    hide Peek;
  }

  lemma EndsClear(t: System, o: Outcome, m: Machine, cycles: nat)
    requires Ends(o, m, cycles)
    requires t.Running? && t.cpu.core == o.core && t.memory == o.memory && !t.cpu.resetting
    ensures BetweenWith(t, m, false)
  {
    hide Peek;
  }

  /** An interrupt is entered as ever, and the entry is over. */
  lemma InterruptWithEntry(s: System, m: Machine, line: nat -> bool, from: nat)
    requires BetweenWith(s, m, true) && line(from) && !m.regs.p.i
    ensures BetweenWith(Ticks(s, line, from, 7), Interrupt(m), false)
  {
    hide Finish, Program, Interrupt, Ticks, Polled, Handlers, Peek, Before, AtSync, BetweenWith;
    PendingAt(s, m);
    var c := Settled(s).cpu.core;
    PolledIs(s.cpu, line(from));
    PendingBegins(c);
    InterruptEnds(c, m.memory);
    BreakHandlers();
    TicksOfPolled(s, line, from, Brk);
    EndsClear(Ticks(s, line, from, 7), Finish(Program(Brk), Interrupted(c), m.memory, 0), Interrupt(m), 7);
  }

  /** A BRK takes itself for the interrupt: the address that it pushes is one short. */
  lemma BreakWithEntry(s: System, m: Machine, line: nat -> bool, from: nat)
    requires BetweenWith(s, m, true) && Decode(Peek(m.memory, m.regs.pc)) == Some(Brk)
    requires line(from) ==> m.regs.p.i
    ensures BetweenWith(Ticks(s, line, from, 7), Break(m, Add16(m.regs.pc, 1)), false)
  {
    hide Finish, Program, Ticks, Polled, Peek, AtSync, BetweenWith, Break, Decode, Encode;
    PendingAt(s, m);
    var c := Settled(s).cpu.core;
    PolledIs(s.cpu, line(from));
    PendingBegins(c);
    BreakEnds(Pending(Begun(c)), m.memory, Add16(m.regs.pc, 1));
    BreakFrom(m, Add16(m.regs.pc, 1), Add16(m.regs.pc, 1));
    TicksOfPolled(s, line, from, Brk);
    EndsClear(Ticks(s, line, from, 7), Finish(Program(Brk), Pending(Begun(c)), m.memory, 0),
              Break(m, Add16(m.regs.pc, 1)), 7);
  }

  // ---------------------------------------------------------------- runs

  /** A point of a run, an entry pending or not. */
  datatype Debt = Debt(x: Point, pending: bool)

  /** The next point: as ever, but for a BRK that finds the entry pending. */
  function NextDebt(d: Debt, line: nat -> bool): Option<Debt> {
    var m := d.x.m;
    if d.pending && !(line(d.x.at) && !m.regs.p.i) && Decode(Peek(m.memory, m.regs.pc)) == Some(Brk) then
      Some(Debt(Point(Break(m, Add16(m.regs.pc, 1)), d.x.at + 7), false))
    else
      match NextPoint(d.x, line)
      case Some(y) => Some(Debt(y, d.pending && !(line(d.x.at) && !m.regs.p.i)))
      case None => None
  }

  function Debts(d: Debt, line: nat -> bool, n: nat): Option<Debt>
    decreases n
  {
    if n == 0 then Some(d)
    else
      match NextDebt(d, line)
      case Some(e) => Debts(e, line, n - 1)
      case None => None
  }

  lemma BetweenClear(s: System, m: Machine)
    ensures Between(s, m) <==> BetweenWith(s, m, false)
  {
    hide Peek;
  }

  lemma DebtTicks(s: System, d: Debt, line: nat -> bool)
    requires BetweenWith(s, d.x.m, d.pending) && NextDebt(d, line).Some?
    ensures var e := NextDebt(d, line).value;
            d.x.at + 2 <= e.x.at <= d.x.at + 7 &&
            BetweenWith(Ticks(s, line, d.x.at, e.x.at - d.x.at), e.x.m, e.pending)
  {
    hide Interrupt, Execute, Cycles, Decode, Encode, Ticks, Between, BetweenWith, Break, Peek;
    var m, at := d.x.m, d.x.at;
    if !d.pending {
      BetweenClear(s, m);
      PointTicks(s, d.x, line);
      var y := NextPoint(d.x, line).value;
      BetweenClear(Ticks(s, line, at, y.at - at), y.m);
    } else if line(at) && !m.regs.p.i {
      InterruptWithEntry(s, m, line, at);
    } else {
      var i := Decode(Peek(m.memory, m.regs.pc)).value;
      if i == Brk {
        BreakWithEntry(s, m, line, at);
      } else {
        InstructionWithEntry(s, m, line, at, i);
        SevenCycles(i, m);
      }
    }
  }

  /** Whole runs with an entry pending at their start. */
  lemma {:induction false} DebtsRefine(s: System, d: Debt, line: nat -> bool, n: nat)
    requires BetweenWith(s, d.x.m, d.pending) && Debts(d, line, n).Some?
    ensures var e := Debts(d, line, n).value;
            d.x.at + 2 * n <= e.x.at <= d.x.at + 7 * n &&
            BetweenWith(Ticks(s, line, d.x.at, e.x.at - d.x.at), e.x.m, e.pending)
    decreases n
  {
    hide NextDebt, BetweenWith, CpuTicks.Step;
    if n > 0 {
      var e := NextDebt(d, line).value;
      DebtTicks(s, d, line);
      var t := Ticks(s, line, d.x.at, e.x.at - d.x.at);
      DebtsRefine(t, e, line, n - 1);
      TicksMore(s, line, d.x.at, e.x.at - d.x.at, Debts(d, line, n).value.x.at - e.x.at);
    }
  }

  // ---------------------------------------------------------------- when it shows

  /** A BRK is the next instruction, and no interrupt displaces it. */
  predicate AtBreak(x: Point, line: nat -> bool) {
    !(line(x.at) && !x.m.regs.p.i) && Decode(Peek(x.m.memory, x.m.regs.pc)) == Some(Brk)
  }

  /** Within the next n steps a BRK comes before any interrupt. */
  predicate BreakFirst(x: Point, line: nat -> bool, n: nat)
    decreases n
  {
    0 < n && !(line(x.at) && !x.m.regs.p.i) &&
    (AtBreak(x, line) || (NextPoint(x, line).Some? && BreakFirst(NextPoint(x, line).value, line, n - 1)))
  }

  /** After so many steps the run with the entry pending is where the run without it is. */
  predicate Agrees(x: Point, line: nat -> bool, n: nat) {
    var d, y := Debts(Debt(x, true), line, n), Points(x, line, n);
    d.Some? == y.Some? && (d.Some? ==> d.value.x == y.value)
  }

  lemma {:induction false} ClearAgrees(x: Point, line: nat -> bool, n: nat)
    ensures var d, y := Debts(Debt(x, false), line, n), Points(x, line, n);
            d.Some? == y.Some? && (d.Some? ==> d.value.x == y.value && !d.value.pending)
    decreases n
  {
    hide Interrupt, Execute, Cycles, Decode, Encode, Break, Peek;
    if n > 0 && NextPoint(x, line).Some? {
      ClearAgrees(NextPoint(x, line).value, line, n - 1);
    }
  }

  lemma {:induction false} NoBreakAgrees(x: Point, line: nat -> bool, n: nat)
    requires !BreakFirst(x, line, n)
    ensures Agrees(x, line, n)
    decreases n
  {
    hide Interrupt, Execute, Cycles, Decode, Encode, Break, Peek;
    if n > 0 && NextPoint(x, line).Some? {
      var y := NextPoint(x, line).value;
      if line(x.at) && !x.m.regs.p.i {
        ClearAgrees(y, line, n - 1);
      } else {
        NoBreakAgrees(y, line, n - 1);
      }
    }
  }

  /** The low byte of the address that a BRK pushes tells the two apart. */
  lemma BreaksDiffer(m: Machine)
    requires HasStack(m.memory)
    ensures Break(m, Add16(m.regs.pc, 1)) != Break(m, Add16(m.regs.pc, 2))
  {
    LowDiffers(m.regs.pc);
    BreakPushes(m, Add16(m.regs.pc, 1));
    BreakPushes(m, Add16(m.regs.pc, 2));
  }

  lemma LowDiffers(pc: word)
    ensures Add16(pc, 1) % 256 != Add16(pc, 2) % 256
  {
  }

  lemma BreakPushes(m: Machine, back: word)
    requires HasStack(m.memory)
    ensures Peek(Break(m, back).memory, Place(m.regs.sp, 1)) == back % 256
  {
    hide Pack, Peek, Push, PushWord, HasStack;
    PushingWord(m, back);
    var t := PushWord(m, back);
    Pushing(t, Pack(m.regs.p.(x := true)));
    DownAgain(m.regs.sp, 2, 0);
    DownDiffers(m.regs.sp, 1, 2);
  }

  lemma {:induction false} BreakFirstGrows(x: Point, line: nat -> bool, k: nat, n: nat)
    requires k <= n && BreakFirst(x, line, k)
    ensures BreakFirst(x, line, n)
    decreases n
  {
    hide NextPoint, AtBreak;
    if !AtBreak(x, line) {
      BreakFirstGrows(NextPoint(x, line).value, line, k - 1, n - 1);
    }
  }

  predicate SameSize(a: Memory, b: Memory) {
    |a.cells| == |b.cells| && a.ram == b.ram
  }

  lemma BreakKeepsSize(m: Machine, back: word)
    ensures SameSize(Break(m, back).memory, m.memory)
  {
    hide Pack, Peek;
  }

  lemma StepKeepsSize(i: Instruction, m: Machine)
    ensures SameSize(Execute(i, m).memory, m.memory)
  {
    hide Pack, Peek, Perform, PerformInner, Modify, Effective, Break, Pulled, BranchTarget;
    if i.Brk? {
      BreakKeepsSize(m, Add16(m.regs.pc, 2));
    }
  }

  lemma PointKeepsStack(x: Point, line: nat -> bool)
    requires HasStack(x.m.memory) && NextPoint(x, line).Some?
    ensures HasStack(NextPoint(x, line).value.m.memory)
  {
    hide Execute, Cycles, Break, Decode, Encode, Peek;
    BreakKeepsSize(x.m.(regs := x.m.regs.(p := x.m.regs.p.(b := false))), x.m.regs.pc);
    if Decode(Peek(x.m.memory, x.m.regs.pc)).Some? {
      StepKeepsSize(Decode(Peek(x.m.memory, x.m.regs.pc)).value, x.m);
    }
  }

  lemma BreakIsNext(x: Point, line: nat -> bool)
    requires AtBreak(x, line)
    ensures NextPoint(x, line) == Some(Point(Break(x.m, Add16(x.m.regs.pc, 2)), x.at + 7))
  {
    hide Break, Decode, Encode, Peek, Interrupt;
  }

  lemma ShortBreakIsNext(x: Point, line: nat -> bool)
    requires AtBreak(x, line)
    ensures NextDebt(Debt(x, true), line) == Some(Debt(Point(Break(x.m, Add16(x.m.regs.pc, 1)), x.at + 7), false))
  {
    hide Break, Decode, Encode, Peek, Interrupt, NextPoint;
  }

  lemma OneStep(x: Point, d: Debt, line: nat -> bool)
    ensures Points(x, line, 1) == NextPoint(x, line) && Debts(d, line, 1) == NextDebt(d, line)
  {
    hide NextPoint, NextDebt;
    if NextPoint(x, line).Some? {
      assert Points(NextPoint(x, line).value, line, 0) == NextPoint(x, line);
    }
    if NextDebt(d, line).Some? {
      assert Debts(NextDebt(d, line).value, line, 0) == NextDebt(d, line);
    }
  }

  /** The BRK itself shows it. */
  lemma BreakDisagrees(x: Point, line: nat -> bool)
    requires AtBreak(x, line) && HasStack(x.m.memory)
    ensures !Agrees(x, line, 1)
  {
    hide Break, Decode, Encode, Peek, HasStack, NextPoint, NextDebt, AtBreak, Points, Debts;
    BreaksDiffer(x.m);
    BreakIsNext(x, line);
    ShortBreakIsNext(x, line);
    OneStep(x, Debt(x, true), line);
  }

  lemma OneLater(x: Point, line: nat -> bool, k: nat)
    requires !AtBreak(x, line) && !(line(x.at) && !x.m.regs.p.i) && NextPoint(x, line).Some?
    ensures Agrees(x, line, k + 1) == Agrees(NextPoint(x, line).value, line, k)
  {
    hide NextPoint, Decode, Encode, Peek, Break;
  }

  lemma {:induction false} BreakShows(x: Point, line: nat -> bool, n: nat) returns (k: nat)
    requires BreakFirst(x, line, n) && HasStack(x.m.memory)
    ensures k <= n && !Agrees(x, line, k)
    decreases n
  {
    hide NextPoint, AtBreak, Agrees, HasStack;
    if AtBreak(x, line) {
      k := 1;
      BreakDisagrees(x, line);
    } else {
      var y := NextPoint(x, line).value;
      PointKeepsStack(x, line);
      k := BreakShows(y, line, n - 1);
      OneLater(x, line, k);
      k := k + 1;
    }
  }

  /**
   * A run that begins with an entry pending is where the run without it is, step after step, if and only if no BRK
   * comes before the first interrupt.
   */
  lemma PendingShowsExactly(x: Point, line: nat -> bool, n: nat)
    requires HasStack(x.m.memory)
    ensures (forall k: nat | k <= n :: Agrees(x, line, k)) <==> !BreakFirst(x, line, n)
  {
    hide Agrees, BreakFirst, HasStack;
    if BreakFirst(x, line, n) {
      var k := BreakShows(x, line, n);
    } else {
      forall k: nat | k <= n ensures Agrees(x, line, k) {
        if BreakFirst(x, line, k) {
          BreakFirstGrows(x, line, k, n);
        } else {
          NoBreakAgrees(x, line, k);
        }
      }
    }
  }

  /** From a reset that came during an interrupt's entry: the vector, and then a run with the entry pending. */
  lemma ResetThenPending(p: Cpu, m: Memory, line: nat -> bool, from: nat, n: nat)
    requires p.resetting && p.resetCycle == 0 && p.core.servicing
    requires Debts(Debt(Point(Restarted(p.core.regs, m), from + 7), true), line, n).Some?
    ensures var e := Debts(Debt(Point(Restarted(p.core.regs, m), from + 7), true), line, n).value;
            && from + 7 + 2 * n <= e.x.at <= from + 7 + 7 * n
            && BetweenWith(Ticks(Running(p, m), line, from, e.x.at - from), e.x.m, e.pending)
  {
    hide BetweenWith, Ticks, Debts, Restarted, CpuTicks.Step;
    var d := Debt(Point(Restarted(p.core.regs, m), from + 7), true);
    RestartsPending(p, m, line, from);
    DebtsRefine(Ticks(Running(p, m), line, from, 7), d, line, n);
    TicksMore(Running(p, m), line, from, 7, Debts(d, line, n).value.x.at - d.x.at);
  }

  lemma RestartsPending(p: Cpu, m: Memory, line: nat -> bool, from: nat)
    requires p.resetting && p.resetCycle == 0 && p.core.servicing
    ensures BetweenWith(Ticks(Running(p, m), line, from, 7), Restarted(p.core.regs, m), true)
  {
    hide CpuTicks.Step, Peek, Ticks;
    TicksMore(Running(p, m), line, from, 4, 3);
    ResetBegins(p, m, line, from);
    ResetReadsVector(Ticks(Running(p, m), line, from, 4).cpu, m, line, from + 4);
  }
}
