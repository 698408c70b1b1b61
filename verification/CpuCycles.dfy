// Running an instruction's handlers, cycle by cycle, against memory that answers each of them, and the
// refinement: from SYNC to SYNC the handlers do what the instruction does, in its number of cycles.

module CpuCycles {
  import opened Bits
  import opened CpuAlu
  import opened Microcode
  import opened Opcodes
  import opened Instructions

  /** After each cycle memory puts a read's data on the bus. */
  function Answered(c: Core, m: Memory): Core {
    if c.bus.rw then c.(bus := c.bus.(data := Peek(m, c.bus.address))) else c
  }

  /** ... or takes a write's data off it. */
  function Stored(c: Core, m: Memory): Memory {
    if c.bus.rw then m else Poke(m, c.bus.address, c.bus.data)
  }

  /** One handler: the bus is set to read before it runs. */
  function Cycle(s: Step, c: Core): Core {
    Do(s, c.(bus := c.bus.(rw := true)))
  }

  datatype Outcome = Stuck | Done(core: Core, memory: Memory, cycles: nat)

  /** The handlers from here to the next SYNC; the machine stops where a handler is missing. */
  function Finish(steps: Steps, c: Core, m: Memory, cycles: nat): Outcome
    decreases steps
  {
    match steps
    case End => Stuck
    case Then(s, rest) =>
      var c' := Answered(Cycle(s, c), m);
      var m' := Stored(Cycle(s, c), m);
      if c'.bus.sync then Done(c', m', cycles + 1)
      else if Skips(s, c) && rest.Then? then Finish(rest.rest, c', m', cycles + 1)
      else Finish(rest, c', m', cycles + 1)
  }

  /** The core as the opcode at the program counter comes off the bus. */
  function Begun(c: Core): Core {
    c.(regs := c.regs.(pc := Add16(c.regs.pc, 1)), bus := c.bus.(sync := false))
  }

  /** The core as an interrupt takes the place of the opcode. */
  function Interrupted(c: Core): Core {
    c.(regs := c.regs.(p := c.regs.p.(b := false)), bus := c.bus.(sync := false), servicing := true)
  }

  /** Between instructions: the opcode's address and the opcode are on the bus with SYNC. */
  predicate AtSync(c: Core, m: Memory) {
    c.bus == Pins(c.regs.pc, Peek(m, c.regs.pc), true, true) && !c.servicing
  }

  /** The handlers ended at SYNC in the given registers and memory after so many cycles. */
  predicate Ends(o: Outcome, s: Machine, cycles: nat) {
    o.Done? && o.core.regs == s.regs && o.memory == s.memory && AtSync(o.core, o.memory) && o.cycles == cycles
  }

  // ---------------------------------------------------------------- routes

  /** The address and a read's data are on the bus, the program counter is past the operand. */
  predicate Reached(c: Core, r: Regs, at: word, m: Memory) {
    c.regs == r && c.bus == Pins(at, Peek(m, at), true, false) && !c.servicing
  }

  /** The core before the first handler of an instruction at pc. */
  predicate Starts(c: Core, pc: word) {
    c.regs.pc == Add16(pc, 1) && !c.bus.sync && !c.servicing
  }

  function At(r: Regs, pc: word): Regs {
    r.(pc := pc)
  }

  /** One handler that reads and goes on to the next. */
  lemma Goes(s: Step, rest: Steps, c: Core, m: Memory, n: nat) returns (c': Core)
    requires Cycle(s, c).bus.rw && !Cycle(s, c).bus.sync && (s.AbsoluteIndexed? ==> !Skips(s, c))
    ensures c' == Answered(Cycle(s, c), m) && Finish(Then(s, rest), c, m, n) == Finish(rest, c', m, n + 1)
  {
    hide Do, Peek, Poke;
    c' := Answered(Cycle(s, c), m);
  }

  /** One handler that reads and passes over the next. */
  lemma GoesPast(s: Step, rest: Steps, c: Core, m: Memory, n: nat) returns (c': Core)
    requires Cycle(s, c).bus.rw && !Cycle(s, c).bus.sync && Skips(s, c) && rest.Then?
    ensures c' == Answered(Cycle(s, c), m) && Finish(Then(s, rest), c, m, n) == Finish(rest.rest, c', m, n + 1)
  {
    hide Do, Peek, Poke, Skips;
    c' := Answered(Cycle(s, c), m);
  }

  /** Adding an index to an address keeps its page or takes it to the next. */
  lemma WithinPage(high: byte, low: byte, x: byte)
    ensures (high * 256 + low) / 256 == high
    ensures ((high * 256 + low + x) / 256 == high) == (low + x < 256)
    ensures low + x < 256 ==>
              Add16(high * 256 + low, x) == InPage(high * 256 + low, LowByte(LowByte(high * 256 + low) + x))
    ensures LowByte(high * 256 + low) == low
  {
  }

  lemma IndexedPast(i: Index, rest: Steps, c: Core, m: Memory, n: nat) returns (c': Core)
    requires c.temp < 256 && !c.bus.sync && !c.servicing && c.temp + IndexOf(i, c.regs) >= 256
    ensures Reached(c', c.regs, Add16(c.bus.data * 256 + c.temp, IndexOf(i, c.regs)), m)
    ensures Finish(Then(AbsoluteIndexed(i, true), Then(AddIndex(i, Nothing), rest)), c, m, n)
              == Finish(rest, c', m, n + 2)
  {
    hide Finish, Peek;
    WithinPage(c.bus.data, c.temp, IndexOf(i, c.regs));
    var d := Goes(AbsoluteIndexed(i, true), Then(AddIndex(i, Nothing), rest), c, m, n);
    c' := Goes(AddIndex(i, Nothing), rest, d, m, n + 1);
  }

  lemma IndexedWithin(i: Index, rest: Steps, c: Core, m: Memory, n: nat) returns (c': Core)
    requires c.temp < 256 && !c.bus.sync && !c.servicing && c.temp + IndexOf(i, c.regs) < 256
    ensures Reached(c', c.regs, Add16(c.bus.data * 256 + c.temp, IndexOf(i, c.regs)), m)
    ensures Finish(Then(AbsoluteIndexed(i, true), Then(AddIndex(i, Nothing), rest)), c, m, n)
              == Finish(rest, c', m, n + 1)
  {
    hide Finish, Peek;
    WithinPage(c.bus.data, c.temp, IndexOf(i, c.regs));
    assert Join(c.bus.data, c.temp) == c.bus.data * 256 + c.temp;
    hide Join, InPage, LowByte, Add16;
    c' := GoesPast(AbsoluteIndexed(i, true), Then(AddIndex(i, Nothing), rest), c, m, n);
  }

  /** The low byte of an address is in temp and its high byte on the bus: indexing takes a cycle, or two. */
  lemma IndexedAddress(i: Index, rest: Steps, c: Core, m: Memory, n: nat) returns (c': Core)
    requires c.temp < 256 && !c.bus.sync && !c.servicing
    ensures var low, x := c.temp, IndexOf(i, c.regs);
            Reached(c', c.regs, Add16(c.bus.data * 256 + low, x), m) &&
            Finish(Then(AbsoluteIndexed(i, true), Then(AddIndex(i, Nothing), rest)), c, m, n)
              == Finish(rest, c', m, if low + x >= 256 then n + 2 else n + 1)
  {
    hide Peek, Finish, Reached;
    if c.temp + IndexOf(i, c.regs) >= 256 {
      c' := IndexedPast(i, rest, c, m, n);
    } else {
      c' := IndexedWithin(i, rest, c, m, n);
    }
  }

  lemma RouteOfZero(mode: Mode, c: Core, pc: word, m: Memory, rest: Steps) returns (c': Core)
    requires Starts(c, pc) && (mode.Immediate? || mode.Zero? || mode.ZeroX? || mode.ZeroY?)
    ensures Reached(c', At(c.regs, Add16(pc, 2)), Effective(mode, At(c.regs, pc), m), m)
    ensures Finish(Route(mode, Nothing, rest), c, m, 0) == Finish(rest, c', m, RouteCycles(mode, false))
  {
    hide Peek, Finish, Skips;
    TwoOn(pc);
    match mode
    case Immediate =>
      c' := Goes(FetchOperand, rest, c, m, 0);
    case Zero =>
      c' := Goes(FetchOperand, Then(ZeroPage(Nothing), rest), c, m, 0);
      c' := Goes(ZeroPage(Nothing), rest, c', m, 1);
    case ZeroX =>
      c' := Goes(FetchOperand, Then(ZeroPageKeep, Then(ZeroPageIndexed(IndexX, Nothing), rest)), c, m, 0);
      c' := Goes(ZeroPageKeep, Then(ZeroPageIndexed(IndexX, Nothing), rest), c', m, 1);
      c' := Goes(ZeroPageIndexed(IndexX, Nothing), rest, c', m, 2);
    case ZeroY =>
      c' := Goes(FetchOperand, Then(ZeroPageKeep, Then(ZeroPageIndexed(IndexY, Nothing), rest)), c, m, 0);
      c' := Goes(ZeroPageKeep, Then(ZeroPageIndexed(IndexY, Nothing), rest), c', m, 1);
      c' := Goes(ZeroPageIndexed(IndexY, Nothing), rest, c', m, 2);
  }

  lemma TwoOn(pc: word)
    ensures Add16(Add16(pc, 1), 1) == Add16(pc, 2) && Add16(Add16(pc, 2), 1) == Add16(pc, 3)
  {
  }

  /** The operand's two bytes: the low one is in temp, the high one on the bus. */
  lemma FetchAddress(rest: Steps, c: Core, pc: word, m: Memory) returns (c': Core)
    requires Starts(c, pc)
    ensures c'.regs == At(c.regs, Add16(pc, 3)) && c'.temp == Peek(m, Add16(pc, 1)) && !c'.servicing
    ensures c'.bus == Pins(Add16(pc, 2), Peek(m, Add16(pc, 2)), true, false)
    ensures Finish(Then(FetchOperand, Then(FetchLow, rest)), c, m, 0) == Finish(rest, c', m, 2)
  {
    hide Peek, Finish, Skips;
    TwoOn(pc);
    c' := Goes(FetchOperand, Then(FetchLow, rest), c, m, 0);
    c' := Goes(FetchLow, rest, c', m, 1);
  }

  lemma RouteOfAbsolute(mode: Mode, c: Core, pc: word, m: Memory, rest: Steps) returns (c': Core)
    requires Starts(c, pc) && (mode.Absolute? || mode.AbsoluteX? || mode.AbsoluteY?)
    ensures var r := At(c.regs, pc);
            Reached(c', At(r, Add16(pc, 3)), Effective(mode, r, m), m) &&
            Finish(Route(mode, Nothing, rest), c, m, 0)
              == Finish(rest, c', m, RouteCycles(mode, Crosses(mode, r, m)))
  {
    hide Peek, Finish;
    match mode
    case Absolute =>
      c' := FetchAddress(Then(AbsoluteAt(Nothing), rest), c, pc, m);
      c' := Goes(AbsoluteAt(Nothing), rest, c', m, 2);
    case AbsoluteX => c' := RouteOfIndexed(IndexX, c, pc, m, rest);
    case AbsoluteY => c' := RouteOfIndexed(IndexY, c, pc, m, rest);
  }

  function IndexedMode(i: Index): Mode {
    if i.IndexX? then AbsoluteX else AbsoluteY
  }

  lemma RouteOfIndexed(i: Index, c: Core, pc: word, m: Memory, rest: Steps) returns (c': Core)
    requires Starts(c, pc)
    ensures var r, mode := At(c.regs, pc), IndexedMode(i);
            Reached(c', At(r, Add16(pc, 3)), Effective(mode, r, m), m) &&
            Finish(Route(mode, Nothing, rest), c, m, 0)
              == Finish(rest, c', m, RouteCycles(mode, Crosses(mode, r, m)))
  {
    hide Peek, Finish;
    c' := FetchAddress(Then(AbsoluteIndexed(i, true), Then(AddIndex(i, Nothing), rest)), c, pc, m);
    WithinPage(c'.bus.data, c'.temp, IndexOf(i, c'.regs));
    c' := IndexedAddress(i, rest, c', m, 2);
  }

  /** The operand indexed in page zero: its address is in temp and on the bus. */
  lemma FetchIndexed(rest: Steps, c: Core, pc: word, m: Memory) returns (c': Core)
    requires Starts(c, pc)
    ensures var at := (Peek(m, Add16(pc, 1)) + c.regs.x) % 256;
            c'.regs == At(c.regs, Add16(pc, 2)) && c'.temp == at && !c'.servicing &&
            c'.bus == Pins(at, Peek(m, at), true, false) &&
            Finish(Then(FetchOperand, Then(ZeroPageKeep, Then(PointerX, rest))), c, m, 0) == Finish(rest, c', m, 3)
  {
    hide Peek, Finish, Skips;
    TwoOn(pc);
    c' := Goes(FetchOperand, Then(ZeroPageKeep, Then(PointerX, rest)), c, m, 0);
    c' := Goes(ZeroPageKeep, Then(PointerX, rest), c', m, 1);
    c' := Goes(PointerX, rest, c', m, 2);
  }

  lemma FetchIndexedPointer(rest: Steps, c: Core, pc: word, m: Memory) returns (c': Core)
    requires Starts(c, pc)
    ensures var at := (Peek(m, Add16(pc, 1)) + c.regs.x) % 256;
            c'.regs == At(c.regs, Add16(pc, 2)) && c'.temp == Peek(m, at) && !c'.servicing &&
            c'.bus == Pins((at + 1) % 256, Peek(m, (at + 1) % 256), true, false) &&
            Finish(Then(FetchOperand, Then(ZeroPageKeep, Then(PointerX, Then(PointerXHigh, rest)))), c, m, 0)
              == Finish(rest, c', m, 4)
  {
    hide Peek, Finish, Skips;
    c' := FetchIndexed(Then(PointerXHigh, rest), c, pc, m);
    c' := Goes(PointerXHigh, rest, c', m, 3);
  }

  lemma RouteOfIndirectX(c: Core, pc: word, m: Memory, rest: Steps) returns (c': Core)
    requires Starts(c, pc)
    ensures Reached(c', At(c.regs, Add16(pc, 2)), Effective(IndirectX, At(c.regs, pc), m), m)
    ensures Finish(Route(IndirectX, Nothing, rest), c, m, 0) == Finish(rest, c', m, 5)
  {
    hide Peek, Finish, Skips;
    c' := FetchIndexedPointer(Then(PointerAt(Nothing), rest), c, pc, m);
    c' := Goes(PointerAt(Nothing), rest, c', m, 4);
  }

  /** The zero-page pointer's two bytes: the low one is in temp, the high one on the bus. */
  lemma FetchPointer(rest: Steps, c: Core, pc: word, m: Memory) returns (c': Core)
    requires Starts(c, pc)
    ensures var at := Peek(m, Add16(pc, 1));
            c'.regs == At(c.regs, Add16(pc, 2)) && c'.temp == Peek(m, at) && !c'.servicing &&
            c'.bus == Pins((at + 1) % 256, Peek(m, (at + 1) % 256), true, false) &&
            Finish(Then(FetchOperand, Then(ZeroPageKeep, Then(PointerYHigh, rest))), c, m, 0) == Finish(rest, c', m, 3)
  {
    hide Peek, Finish, Skips;
    TwoOn(pc);
    c' := Goes(FetchOperand, Then(ZeroPageKeep, Then(PointerYHigh, rest)), c, m, 0);
    c' := Goes(ZeroPageKeep, Then(PointerYHigh, rest), c', m, 1);
    c' := Goes(PointerYHigh, rest, c', m, 2);
  }

  lemma RouteOfIndirectY(c: Core, pc: word, m: Memory, rest: Steps) returns (c': Core)
    requires Starts(c, pc)
    ensures var r := At(c.regs, pc);
            Reached(c', At(r, Add16(pc, 2)), Effective(IndirectY, r, m), m) &&
            Finish(Route(IndirectY, Nothing, rest), c, m, 0)
              == Finish(rest, c', m, RouteCycles(IndirectY, Crosses(IndirectY, r, m)))
  {
    hide Peek, Finish;
    c' := FetchPointer(Then(AbsoluteIndexed(IndexY, true), Then(AddIndex(IndexY, Nothing), rest)), c, pc, m);
    WithinPage(c'.bus.data, c'.temp, c'.regs.y);
    c' := IndexedAddress(IndexY, rest, c', m, 3);
  }

  lemma ReadRoute(mode: Mode, c: Core, pc: word, m: Memory, rest: Steps) returns (c': Core)
    requires Starts(c, pc)
    ensures var r := At(c.regs, pc);
            Reached(c', At(r, Add16(pc, Length(mode))), Effective(mode, r, m), m) &&
            Finish(Route(mode, Nothing, rest), c, m, 0)
              == Finish(rest, c', m, RouteCycles(mode, Crosses(mode, r, m)))
  {
    hide Finish, Skips, Route, Effective, Reached;
    if mode.Absolute? || mode.AbsoluteX? || mode.AbsoluteY? {
      c' := RouteOfAbsolute(mode, c, pc, m, rest);
    } else if mode.IndirectX? {
      c' := RouteOfIndirectX(c, pc, m, rest);
    } else if mode.IndirectY? {
      c' := RouteOfIndirectY(c, pc, m, rest);
    } else {
      c' := RouteOfZero(mode, c, pc, m, rest);
    }
  }

  // ---------------------------------------------------------------- stores

  /** A store's last cycle but one has put the address and the data on the bus. */
  predicate Written(c: Core, r: Regs, at: word, v: byte) {
    c.regs == r && c.bus == Pins(at, v, false, false) && !c.servicing
  }

  lemma Puts(s: Step, rest: Steps, c: Core, m: Memory, n: nat) returns (c': Core)
    requires !Cycle(s, c).bus.rw && !Cycle(s, c).bus.sync && !s.AbsoluteIndexed?
    ensures c' == Cycle(s, c)
    ensures Finish(Then(s, rest), c, m, n) == Finish(rest, c', Poke(m, c'.bus.address, c'.bus.data), n + 1)
  {
    hide Do, Peek, Poke;
    c' := Cycle(s, c);
  }

  lemma StoreOfZero(mode: Mode, put: Put, c: Core, pc: word, m: Memory, rest: Steps) returns (c': Core)
    requires Starts(c, pc) && (mode.Zero? || mode.ZeroX? || mode.ZeroY?) && !put.Nothing?
    ensures var at, v := Effective(mode, At(c.regs, pc), m), PutValue(put, c.regs);
            Written(c', At(c.regs, Add16(pc, 2)), at, v) &&
            Finish(Route(mode, put, rest), c, m, 0) == Finish(rest, c', Poke(m, at, v), RouteCycles(mode, true))
  {
    hide Peek, Finish, Skips, Poke;
    TwoOn(pc);
    if mode.Zero? {
      c' := Goes(FetchOperand, Then(ZeroPage(put), rest), c, m, 0);
      c' := Puts(ZeroPage(put), rest, c', m, 1);
    } else {
      var i := if mode.ZeroX? then IndexX else IndexY;
      c' := Goes(FetchOperand, Then(ZeroPageKeep, Then(ZeroPageIndexed(i, put), rest)), c, m, 0);
      c' := Goes(ZeroPageKeep, Then(ZeroPageIndexed(i, put), rest), c', m, 1);
      c' := Puts(ZeroPageIndexed(i, put), rest, c', m, 2);
    }
  }

  lemma IndexedStore(i: Index, put: Put, rest: Steps, c: Core, m: Memory, n: nat) returns (c': Core)
    requires c.temp < 256 && !c.bus.sync && !c.servicing && !put.Nothing?
    ensures var at, v := Add16(c.bus.data * 256 + c.temp, IndexOf(i, c.regs)), PutValue(put, c.regs);
            Written(c', c.regs, at, v) &&
            Finish(Then(AbsoluteIndexed(i, false), Then(AddIndex(i, put), rest)), c, m, n)
              == Finish(rest, c', Poke(m, at, v), n + 2)
  {
    hide Peek, Finish, Poke;
    WithinPage(c.bus.data, c.temp, IndexOf(i, c.regs));
    c' := Goes(AbsoluteIndexed(i, false), Then(AddIndex(i, put), rest), c, m, n);
    c' := Puts(AddIndex(i, put), rest, c', m, n + 1);
  }

  lemma StoreOfAbsolute(mode: Mode, put: Put, c: Core, pc: word, m: Memory, rest: Steps) returns (c': Core)
    requires Starts(c, pc) && (mode.Absolute? || mode.AbsoluteX? || mode.AbsoluteY?) && !put.Nothing?
    ensures var at, v := Effective(mode, At(c.regs, pc), m), PutValue(put, c.regs);
            Written(c', At(c.regs, Add16(pc, 3)), at, v) &&
            Finish(Route(mode, put, rest), c, m, 0) == Finish(rest, c', Poke(m, at, v), RouteCycles(mode, true))
  {
    hide Peek, Finish, Poke;
    if mode.Absolute? {
      c' := FetchAddress(Then(AbsoluteAt(put), rest), c, pc, m);
      c' := Puts(AbsoluteAt(put), rest, c', m, 2);
    } else {
      var i := if mode.AbsoluteX? then IndexX else IndexY;
      c' := FetchAddress(Then(AbsoluteIndexed(i, false), Then(AddIndex(i, put), rest)), c, pc, m);
      c' := IndexedStore(i, put, rest, c', m, 2);
    }
  }

  lemma StoreOfIndirect(mode: Mode, put: Put, c: Core, pc: word, m: Memory, rest: Steps) returns (c': Core)
    requires Starts(c, pc) && (mode.IndirectX? || mode.IndirectY?) && !put.Nothing?
    ensures var at, v := Effective(mode, At(c.regs, pc), m), PutValue(put, c.regs);
            Written(c', At(c.regs, Add16(pc, 2)), at, v) &&
            Finish(Route(mode, put, rest), c, m, 0) == Finish(rest, c', Poke(m, at, v), RouteCycles(mode, true))
  {
    hide Peek, Finish, Poke;
    TwoOn(pc);
    if mode.IndirectY? {
      c' := FetchPointer(Then(AbsoluteIndexed(IndexY, false), Then(AddIndex(IndexY, put), rest)), c, pc, m);
      c' := IndexedStore(IndexY, put, rest, c', m, 3);
    } else {
      c' := FetchIndexedPointer(Then(PointerAt(put), rest), c, pc, m);
      c' := Puts(PointerAt(put), rest, c', m, 4);
    }
  }

  // ---------------------------------------------------------------- the ends of the instructions

  /** A handler that fetches the next opcode ends the instruction. */
  lemma Fetches(s: Step, c: Core, m: Memory, n: nat)
    requires Cycle(s, c).bus.sync && Cycle(s, c).bus.rw && Cycle(s, c).bus.address == Cycle(s, c).regs.pc
    requires !Cycle(s, c).servicing
    ensures forall rest :: Ends(Finish(Then(s, rest), c, m, n), Machine(Cycle(s, c).regs, m), n + 1)
  {
  }

  /** Where an instruction that displaces nothing starts. */
  function Before(c: Core, m: Memory): Machine {
    Machine(c.regs, m)
  }

  lemma BegunStarts(c: Core, m: Memory)
    requires AtSync(c, m)
    ensures Starts(Begun(c), c.regs.pc) && At(Begun(c).regs, c.regs.pc) == c.regs
  {
  }

  lemma ReadEnds(mode: Mode, op: ReadOp, c: Core, m: Memory)
    requires AtSync(c, m)
    ensures Ends(Finish(Program(Read(mode, op)), Begun(c), m, 0), Execute(Read(mode, op), Before(c, m)),
                 Cycles(Read(mode, op), Before(c, m)))
  {
    hide Finish, Skips, Perform, Route, Effective, Crosses, RouteCycles, Begun, Peek;
    BegunStarts(c, m);
    var c' := ReadRoute(mode, Begun(c), c.regs.pc, m, Then(Operate(op), End));
    PerformKeepsPc(op, c'.regs, c'.bus.data);
    Fetches(Operate(op), c', m, RouteCycles(mode, Crosses(mode, c.regs, m)));
    BegunRegs(c, Add16(c.regs.pc, Length(mode)));
  }

  lemma BegunRegs(c: Core, pc: word)
    ensures At(At(Begun(c).regs, c.regs.pc), pc) == At(c.regs, pc)
  {
  }

  lemma PerformKeepsPc(op: ReadOp, r: Regs, v: byte)
    ensures Perform(op, r, v).pc == r.pc && Perform(op, r, v).sp == r.sp
  {
  }

  lemma StoreRoute(mode: Mode, put: Put, c: Core, pc: word, m: Memory, rest: Steps) returns (c': Core)
    requires Starts(c, pc) && !mode.Immediate? && !put.Nothing?
    ensures var at, v := Effective(mode, At(c.regs, pc), m), PutValue(put, c.regs);
            Written(c', At(c.regs, Add16(pc, Length(mode))), at, v) &&
            Finish(Route(mode, put, rest), c, m, 0) == Finish(rest, c', Poke(m, at, v), RouteCycles(mode, true))
  {
    hide Finish, Skips, Route, Effective, Written, Poke, PutValue, Starts, RouteCycles, Peek;
    if mode.Absolute? || mode.AbsoluteX? || mode.AbsoluteY? {
      c' := StoreOfAbsolute(mode, put, c, pc, m, rest);
    } else if mode.IndirectX? || mode.IndirectY? {
      c' := StoreOfIndirect(mode, put, c, pc, m, rest);
    } else {
      c' := StoreOfZero(mode, put, c, pc, m, rest);
    }
  }

  lemma StoreEnds(mode: Mode, put: Put, c: Core, m: Memory)
    requires AtSync(c, m) && !mode.Immediate? && !put.Nothing?
    ensures Ends(Finish(Program(Store(mode, put)), Begun(c), m, 0), Execute(Store(mode, put), Before(c, m)),
                 Cycles(Store(mode, put), Before(c, m)))
  {
    hide Finish, Skips, Route, Effective, RouteCycles, Poke, Peek;
    BegunStarts(c, m);
    var c' := StoreRoute(mode, put, Begun(c), c.regs.pc, m, Then(FetchNext, End));
    var at, v := Effective(mode, c.regs, m), PutValue(put, c.regs);
    Fetches(FetchNext, c', Poke(m, at, v), RouteCycles(mode, true));
  }

  lemma ChangeEnds(mode: Mode, change: Modifier, c: Core, m: Memory)
    requires AtSync(c, m)
    ensures Ends(Finish(Program(Change(mode, change)), Begun(c), m, 0), Execute(Change(mode, change), Before(c, m)),
                 Cycles(Change(mode, change), Before(c, m)))
  {
    hide Finish, Skips, Route, Effective, RouteCycles, Crosses, Poke, Peek, Modify, Begun;
    BegunStarts(c, m);
    var n := RouteCycles(mode, Crosses(mode, c.regs, m));
    var at := Effective(mode, c.regs, m);
    var tail := Then(WriteBack, Then(WriteModified(change), Then(FetchNext, End)));
    var c' := ReadRoute(mode, Begun(c), c.regs.pc, m, tail);
    c' := Puts(WriteBack, Then(WriteModified(change), Then(FetchNext, End)), c', m, n);
    PokeOld(m, at);
    c' := Puts(WriteModified(change), Then(FetchNext, End), c', m, n + 1);
    BegunRegs(c, Add16(c.regs.pc, Length(mode)));
    Fetches(FetchNext, c', Poke(m, at, Modify(change, Peek(m, at), c.regs.p).value), n + 2);
  }

  lemma InnerEnds(op: InnerOp, c: Core, m: Memory)
    requires AtSync(c, m)
    ensures Ends(Finish(Program(Inner(op)), Begun(c), m, 0), Execute(Inner(op), Before(c, m)), 2)
  {
    hide Finish, Skips, PerformInner, Peek;
    var c' := Goes(PeekNext, Then(OperateInner(op), End), Begun(c), m, 0);
    InnerKeepsPc(op, c'.regs);
    Fetches(OperateInner(op), c', m, 1);
  }

  lemma InnerKeepsPc(op: InnerOp, r: Regs)
    ensures PerformInner(op, r).pc == r.pc
  {
  }

  lemma BranchTaken(c: Core, m: Memory, pc: word)
    requires c.bus.rw && !c.bus.sync && !c.servicing
    ensures Ends(Finish(Then(BranchNear, Then(BranchFar, End)), c, m, 2), Machine(At(c.regs, c.temp), m),
                 if Page(c.temp) == Page(c.regs.pc) then 3 else 4)
  {
    hide Finish, Skips, Peek, Page;
    if Page(c.temp) == Page(c.regs.pc) {
      Fetches(BranchNear, c, m, 2);
    } else {
      var c' := Goes(BranchNear, Then(BranchFar, End), c, m, 2);
      Fetches(BranchFar, c', m, 3);
    }
  }

  lemma BranchEnds(flag: FlagName, sense: bool, c: Core, m: Memory)
    requires AtSync(c, m)
    ensures Ends(Finish(Program(Branch(flag, sense)), Begun(c), m, 0), Execute(Branch(flag, sense), Before(c, m)),
                 Cycles(Branch(flag, sense), Before(c, m)))
  {
    hide Finish, Skips, Peek, Holds, Page, Offset;
    TwoOn(c.regs.pc);
    var tail := Then(BranchNear, Then(BranchFar, End));
    var c' := Goes(FetchOperand, Then(BranchTest(flag, sense), tail), Begun(c), m, 0);
    if Holds(flag, c.regs.p) != sense {
      Fetches(BranchTest(flag, sense), c', m, 1);
    } else {
      c' := Goes(BranchTest(flag, sense), tail, c', m, 1);
      BranchTaken(c', m, c.regs.pc);
    }
  }

  lemma PushEnds(i: Instruction, c: Core, m: Memory)
    requires AtSync(c, m) && (i.Pha? || i.Php?)
    ensures Ends(Finish(Program(i), Begun(c), m, 0), Execute(i, Before(c, m)), 3)
  {
    hide Finish, Skips, Peek, Poke, Pack;
    var s := if i.Pha? then PushA else PushP;
    var c' := Goes(PeekNext, Then(s, Then(FetchNext, End)), Begun(c), m, 0);
    c' := Puts(s, Then(FetchNext, End), c', m, 1);
    Fetches(FetchNext, c', Poke(m, c'.bus.address, c'.bus.data), 2);
  }

  /** The steps that begin every pull: the byte above the stack pointer is on the bus. */
  lemma PullStarts(c: Core, m: Memory, rest: Steps) returns (c': Core)
    requires AtSync(c, m)
    ensures var sp := (c.regs.sp + 1) % 256;
            c'.regs == c.regs.(pc := Add16(c.regs.pc, 1), sp := sp) && !c'.servicing &&
            c'.bus == Pins(0x100 + sp, Peek(m, 0x100 + sp), true, false) &&
            Finish(Then(PeekNext, Then(StackPeek, Then(StackUp, rest))), Begun(c), m, 0) == Finish(rest, c', m, 3)
  {
    hide Finish, Skips, Peek;
    c' := Goes(PeekNext, Then(StackPeek, Then(StackUp, rest)), Begun(c), m, 0);
    c' := Goes(StackPeek, Then(StackUp, rest), c', m, 1);
    c' := Goes(StackUp, rest, c', m, 2);
  }

  lemma PullEnds(i: Instruction, c: Core, m: Memory)
    requires AtSync(c, m) && (i.Pla? || i.Plp?)
    ensures Ends(Finish(Program(i), Begun(c), m, 0), Execute(i, Before(c, m)), 4)
  {
    hide Finish, Skips, Peek, Pulled;
    var s := if i.Pla? then Operate(Lda) else PullFlags;
    var c' := PullStarts(c, m, Then(s, End));
    Fetches(s, c', m, 3);
  }

  lemma JumpEnds(c: Core, m: Memory)
    requires AtSync(c, m)
    ensures Ends(Finish(Program(Jump), Begun(c), m, 0), Execute(Jump, Before(c, m)), 3)
  {
    hide Finish, Skips, Peek;
    var c' := FetchAddress(Then(JumpTo, End), Begun(c), c.regs.pc, m);
    Fetches(JumpTo, c', m, 2);
  }

  /** The pointer is in temp and its low byte on the bus; its high byte is in the same page. */
  lemma PointerHigh(c: Core, m: Memory, at: word)
    requires c.bus == Pins(at, Peek(m, at), true, false) && !c.servicing && c.temp == at
    ensures Ends(Finish(Then(IndirectHigh, Then(JumpTo, End)), c, m, 3),
                 Machine(At(c.regs, Word(m, at, InPage(at, (at + 1) % 256))), m), 5)
  {
    hide Finish, Skips, Peek, InPage;
    NextInPage(at);
    var c' := Goes(IndirectHigh, Then(JumpTo, End), c, m, 3);
    Fetches(JumpTo, c', m, 4);
  }

  lemma JumpIndirectEnds(c: Core, m: Memory)
    requires AtSync(c, m)
    ensures Ends(Finish(Program(JumpIndirect), Begun(c), m, 0), Execute(JumpIndirect, Before(c, m)), 5)
  {
    hide Finish, Skips, Peek, Page;
    var c' := FetchAddress(Then(IndirectLow, Then(IndirectHigh, Then(JumpTo, End))), Begun(c), c.regs.pc, m);
    c' := Goes(IndirectLow, Then(IndirectHigh, Then(JumpTo, End)), c', m, 2);
    PointerHigh(c', m, OperandWord(m, c.regs));
  }

  lemma NextInPage(at: word)
    ensures LowByte(LowByte(at) + 1) == (at + 1) % 256
  {
  }

  /** The program counter is pushed, its high byte first. */
  lemma PushesPc(high: Step, c: Core, m: Memory, rest: Steps, n: nat, back: word) returns (c': Core)
    requires !c.bus.sync && (high.PushPcHigh? || high.BreakHigh?)
    requires back == if high.BreakHigh? && !c.servicing then Add16(c.regs.pc, 1) else c.regs.pc
    ensures c'.regs == c.regs.(pc := back, sp := (c.regs.sp - 2) % 256)
    ensures c'.temp == c.temp && c'.servicing == c.servicing && !c'.bus.sync
    ensures Finish(Then(high, Then(PushPcLow, rest)), c, m, n)
              == Finish(rest, c', PushWord(Before(c, m), back).memory, n + 2)
  {
    hide Finish, Skips, Poke;
    c' := Puts(high, Then(PushPcLow, rest), c, m, n);
    c' := Puts(PushPcLow, rest, c', Poke(m, c'.bus.address, c'.bus.data), n + 1);
  }

  lemma JsrEnds(c: Core, m: Memory)
    requires AtSync(c, m)
    ensures Ends(Finish(Program(Jsr), Begun(c), m, 0), Execute(Jsr, Before(c, m)), 6)
  {
    hide Finish, Skips, Peek, Poke;
    var tail := Then(PeekNext, Then(JumpTo, End));
    var c' := JsrStarts(c, m, Then(PushPcHigh, Then(PushPcLow, tail)));
    c' := PushesPc(PushPcHigh, c', m, tail, 2, Add16(c.regs.pc, 2));
    var m' := PushWord(Before(c, m), Add16(c.regs.pc, 2)).memory;
    JumpsOn(c', m');
  }

  /** The first two cycles of a subroutine call. */
  lemma JsrStarts(c: Core, m: Memory, rest: Steps) returns (c': Core)
    requires AtSync(c, m)
    ensures c'.regs == c.regs.(pc := Add16(c.regs.pc, 2)) && !c'.bus.sync && !c'.servicing
    ensures c'.temp == Peek(m, Add16(c.regs.pc, 1))
    ensures Finish(Then(FetchOperand, Then(StackPeekKeep, rest)), Begun(c), m, 0) == Finish(rest, c', m, 2)
  {
    hide Finish, Skips, Peek, Poke;
    TwoOn(c.regs.pc);
    c' := Goes(FetchOperand, Then(StackPeekKeep, rest), Begun(c), m, 0);
    c' := Goes(StackPeekKeep, rest, c', m, 1);
  }

  /** The last two cycles of a subroutine call: the low byte of the target is in temp. */
  lemma JumpsOn(c: Core, m: Memory)
    requires !c.bus.sync && !c.servicing && c.temp < 256
    ensures Ends(Finish(Then(PeekNext, Then(JumpTo, End)), c, m, 4),
                 Machine(At(c.regs, Peek(m, c.regs.pc) * 256 + c.temp), m), 6)
  {
    hide Finish, Skips, Peek;
    var c' := Goes(PeekNext, Then(JumpTo, End), c, m, 4);
    Fetches(JumpTo, c', m, 5);
  }

  lemma UpAgain(sp: byte)
    ensures ((sp + 1) % 256 + 1) % 256 == (sp + 2) % 256 && ((sp + 2) % 256 + 1) % 256 == (sp + 3) % 256
  {
  }

  lemma RtsEnds(c: Core, m: Memory)
    requires AtSync(c, m)
    ensures Ends(Finish(Program(Rts), Begun(c), m, 0), Execute(Rts, Before(c, m)), 6)
  {
    hide Finish, Skips, Peek;
    UpAgain(c.regs.sp);
    var c' := PullStarts(c, m, Then(StackUpKeep, Then(ReturnTo, Then(FetchNext, End))));
    ReturnsTo(c', m, (c.regs.sp + 1) % 256);
  }

  /** The last three cycles of a return from a subroutine. */
  lemma ReturnsTo(c: Core, m: Memory, sp: byte)
    requires c.bus == Pins(0x100 + sp, Peek(m, 0x100 + sp), true, false) && c.regs.sp == sp && !c.servicing
    ensures var up := (sp + 1) % 256;
            Ends(Finish(Then(StackUpKeep, Then(ReturnTo, Then(FetchNext, End))), c, m, 3),
                 Machine(c.regs.(sp := up, pc := Add16(Word(m, 0x100 + sp, 0x100 + up), 1)), m), 6)
  {
    hide Finish, Skips, Peek;
    var c' := Goes(StackUpKeep, Then(ReturnTo, Then(FetchNext, End)), c, m, 3);
    ReturnGoes(c', m, c.bus.data);
  }

  lemma ReturnGoes(c: Core, m: Memory, low: byte)
    requires c.temp == low && c.bus.rw && !c.bus.sync && !c.servicing
    ensures Ends(Finish(Then(ReturnTo, Then(FetchNext, End)), c, m, 4),
                 Machine(c.regs.(pc := Add16(c.bus.data * 256 + low, 1)), m), 6)
  {
    hide Finish, Skips, Peek;
    var c' := Goes(ReturnTo, Then(FetchNext, End), c, m, 4);
    Fetches(FetchNext, c', m, 5);
  }

  lemma RtiEnds(c: Core, m: Memory)
    requires AtSync(c, m)
    ensures Ends(Finish(Program(Rti), Begun(c), m, 0), Execute(Rti, Before(c, m)), 6)
  {
    hide Finish, Skips, Peek, Pulled;
    UpAgain(c.regs.sp);
    var c' := PullStarts(c, m, Then(StackUpFlags, Then(StackUpKeep, Then(JumpTo, End))));
    c' := Goes(StackUpFlags, Then(StackUpKeep, Then(JumpTo, End)), c', m, 3);
    PullsPc(c', m, (c.regs.sp + 2) % 256);
  }

  /** The last two cycles of a return from an interrupt. */
  lemma PullsPc(c: Core, m: Memory, sp: byte)
    requires c.bus == Pins(0x100 + sp, Peek(m, 0x100 + sp), true, false) && c.regs.sp == sp && !c.servicing
    ensures var up := (sp + 1) % 256;
            Ends(Finish(Then(StackUpKeep, Then(JumpTo, End)), c, m, 4),
                 Machine(c.regs.(sp := up, pc := Word(m, 0x100 + sp, 0x100 + up)), m), 6)
  {
    hide Finish, Skips, Peek;
    var c' := Goes(StackUpKeep, Then(JumpTo, End), c, m, 4);
    Fetches(JumpTo, c', m, 5);
  }

  /** The break sequence from its first handler, for an instruction or for an interrupt. */
  lemma BreakEnds(c: Core, m: Memory, back: word)
    requires !c.bus.sync && back == if c.servicing then c.regs.pc else Add16(c.regs.pc, 1)
    ensures Ends(Finish(Program(Brk), c, m, 0), Break(Before(c, m), back), 7)
  {
    hide Finish, Skips, Peek, Poke, Pack;
    var vectors := Then(BreakVectorLow, Then(BreakVectorHigh, Then(JumpTo, End)));
    var c' := Goes(PeekNext, Then(BreakHigh, Then(PushPcLow, Then(BreakFlags, vectors))), c, m, 0);
    c' := PushesPc(BreakHigh, c', m, Then(BreakFlags, vectors), 1, back);
    FlagsEnd(c', PushWord(Before(c, m), back).memory);
    PushesMove(Before(c, m), back);
  }

  lemma PushesMove(s: Machine, v: word)
    ensures PushWord(s, v).regs == s.regs.(sp := (s.regs.sp - 2) % 256)
    ensures ((s.regs.sp - 2) % 256 - 1) % 256 == (s.regs.sp - 3) % 256
  {
  }

  /** The flags are pushed and the vector is followed. */
  lemma FlagsEnd(c: Core, m: Memory)
    requires !c.bus.sync
    ensures var pushed := Push(Machine(c.regs, m), Pack(c.regs.p.(x := true)));
            var p := c.regs.p.(i := true, b := true);
            Ends(Finish(Then(BreakFlags, Then(BreakVectorLow, Then(BreakVectorHigh, Then(JumpTo, End)))), c, m, 3),
                 Machine(pushed.regs.(pc := Word(pushed.memory, 0xfffe, 0xffff), p := p), pushed.memory), 7)
  {
    hide Finish, Skips, Peek, Poke, Pack;
    var vectors := Then(BreakVectorLow, Then(BreakVectorHigh, Then(JumpTo, End)));
    var c' := Puts(BreakFlags, vectors, c, m, 3);
    VectorEnds(c', Poke(m, c'.bus.address, c'.bus.data), 4);
  }

  /** The vector's two bytes become the program counter. */
  lemma VectorEnds(c: Core, m: Memory, n: nat)
    requires !c.bus.sync && c.temp == 0xfffe
    ensures Ends(Finish(Then(BreakVectorLow, Then(BreakVectorHigh, Then(JumpTo, End))), c, m, n),
                 Machine(c.regs.(pc := Word(m, 0xfffe, 0xffff), p := c.regs.p.(i := true, b := true)), m), n + 3)
  {
    hide Finish, Skips, Peek;
    var c' := Goes(BreakVectorLow, Then(BreakVectorHigh, Then(JumpTo, End)), c, m, n);
    VectorHigh(c', m, n + 1);
  }

  lemma VectorHigh(c: Core, m: Memory, n: nat)
    requires c.bus == Pins(0xfffe, Peek(m, 0xfffe), true, false) && !c.servicing && c.temp == 0xffff
    ensures Ends(Finish(Then(BreakVectorHigh, Then(JumpTo, End)), c, m, n),
                 Machine(At(c.regs, Word(m, 0xfffe, 0xffff)), m), n + 2)
  {
    hide Finish, Skips, Peek;
    var c' := Goes(BreakVectorHigh, Then(JumpTo, End), c, m, n);
    Fetches(JumpTo, c', m, n + 1);
  }

  /** A break depends on the program counter only through the address that it pushes. */
  lemma BreakFrom(s: Machine, pc: word, back: word)
    ensures Break(s.(regs := At(s.regs, pc)), back) == Break(s, back)
  {
    hide Poke, Peek, Pack;
  }

  /** An interrupt's handlers do what an interrupt does, in seven cycles. */
  lemma InterruptEnds(c: Core, m: Memory)
    requires AtSync(c, m)
    ensures Ends(Finish(Program(Brk), Interrupted(c), m, 0), Interrupt(Before(c, m)), 7)
  {
    hide Finish, Ends, Program, Break, Peek;
    BreakEnds(Interrupted(c), m, c.regs.pc);
  }

  lemma BrkEnds(c: Core, m: Memory)
    requires AtSync(c, m)
    ensures Ends(Finish(Program(Brk), Begun(c), m, 0), Execute(Brk, Before(c, m)), 7)
  {
    hide Finish, Ends, Program, Break, Peek;
    TwoOn(c.regs.pc);
    BreakEnds(Begun(c), m, Add16(c.regs.pc, 2));
    BreakFrom(Before(c, m), Add16(c.regs.pc, 1), Add16(c.regs.pc, 2));
  }

  /**
   * The refinement: from any registers and memory, the handlers of a documented opcode reach the next SYNC with
   * the registers, flags and memory of its instruction, after exactly that instruction's cycles.
   */
  lemma HandlersRefine(i: Instruction, c: Core, m: Memory)
    requires AtSync(c, m) && Documented(i)
    ensures Ends(Finish(Program(i), Begun(c), m, 0), Execute(i, Before(c, m)), Cycles(i, Before(c, m)))
  {
    hide Finish, Skips, Program, Execute, Begun, AtSync, Ends;
    match i
    case Read(mode, op) => ReadEnds(mode, op, c, m);
    case Store(mode, put) => StoreEnds(mode, put, c, m);
    case Change(mode, change) => ChangeEnds(mode, change, c, m);
    case Inner(op) => InnerEnds(op, c, m);
    case Branch(flag, sense) => BranchEnds(flag, sense, c, m);
    case Pha => PushEnds(i, c, m);
    case Php => PushEnds(i, c, m);
    case Pla => PullEnds(i, c, m);
    case Plp => PullEnds(i, c, m);
    case Jump => JumpEnds(c, m);
    case JumpIndirect => JumpIndirectEnds(c, m);
    case Jsr => JsrEnds(c, m);
    case Rts => RtsEnds(c, m);
    case Rti => RtiEnds(c, m);
    case Brk => BrkEnds(c, m);
  }

  /** No instruction takes more than seven cycles, and none fewer than two. */
  lemma SevenCycles(i: Instruction, s: Machine)
    requires Documented(i)
    ensures 2 <= Cycles(i, s) <= 7
  {
  }
}
