// What each documented instruction does to the registers and to memory, from its opcode's fetch to the next,
// as the MCS6500 hardware manual describes it: effective addresses, the stack and the program counter.

module Instructions {
  import opened Bits
  import opened CpuAlu
  import opened Microcode
  import opened Opcodes

  /** Sixty-four kilobytes, writable below `ram`. */
  datatype Memory = Memory(cells: seq<byte>, ram: nat)

  function Peek(m: Memory, at: word): byte {
    if at < |m.cells| then m.cells[at] else 0
  }

  function Poke(m: Memory, at: word, v: byte): Memory {
    if at < m.ram && at < |m.cells| then m.(cells := m.cells[at := v]) else m
  }

  lemma PokeOld(m: Memory, at: word)
    ensures Poke(m, at, Peek(m, at)) == m
  {
  }

  function Word(m: Memory, low: word, high: word): word {
    Peek(m, high) * 256 + Peek(m, low)
  }

  /** A pointer in page zero, where its second byte wraps round. */
  function ZeroPointer(m: Memory, at: byte): word {
    Word(m, at, (at + 1) % 256)
  }

  function Operand(m: Memory, r: Regs): byte {
    Peek(m, Add16(r.pc, 1))
  }

  function OperandWord(m: Memory, r: Regs): word {
    Word(m, Add16(r.pc, 1), Add16(r.pc, 2))
  }

  /** Where the operand of an instruction at r.pc is. */
  function Effective(mode: Mode, r: Regs, m: Memory): word {
    match mode
    case Immediate => Add16(r.pc, 1)
    case Zero => Operand(m, r)
    case ZeroX => (Operand(m, r) + r.x) % 256
    case ZeroY => (Operand(m, r) + r.y) % 256
    case Absolute => OperandWord(m, r)
    case AbsoluteX => Add16(OperandWord(m, r), r.x)
    case AbsoluteY => Add16(OperandWord(m, r), r.y)
    case IndirectX => ZeroPointer(m, (Operand(m, r) + r.x) % 256)
    case IndirectY => Add16(ZeroPointer(m, Operand(m, r)), r.y)
  }

  function Length(mode: Mode): nat {
    if mode.Absolute? || mode.AbsoluteX? || mode.AbsoluteY? then 3 else 2
  }

  /** Whether indexing leaves the page of the address before it. */
  predicate Crosses(mode: Mode, r: Regs, m: Memory) {
    match mode
    case AbsoluteX => OperandWord(m, r) % 256 + r.x >= 256
    case AbsoluteY => OperandWord(m, r) % 256 + r.y >= 256
    case IndirectY => ZeroPointer(m, Operand(m, r)) % 256 + r.y >= 256
    case _ => false
  }

  /** The cycles that the handlers take to bring the address onto the bus, where a store takes no short cut. */
  function RouteCycles(mode: Mode, longer: bool): nat {
    match mode
    case Immediate => 1
    case Zero => 2
    case ZeroX => 3
    case ZeroY => 3
    case Absolute => 3
    case AbsoluteX => if longer then 4 else 3
    case AbsoluteY => if longer then 4 else 3
    case IndirectX => 5
    case IndirectY => if longer then 5 else 4
  }

  datatype Machine = Machine(regs: Regs, memory: Memory)

  function StackAt(sp: byte): word {
    0x100 + sp
  }

  function Push(s: Machine, v: byte): Machine {
    Machine(s.regs.(sp := (s.regs.sp - 1) % 256), Poke(s.memory, StackAt(s.regs.sp), v))
  }

  function PushWord(s: Machine, v: word): Machine {
    Push(Push(s, v / 256), v % 256)
  }

  /** The nth byte above the stack pointer. */
  function Above(s: Machine, n: nat): byte {
    Peek(s.memory, StackAt((s.regs.sp + n) % 256))
  }

  function BranchTarget(r: Regs, offset: byte): word {
    Add16(Add16(r.pc, 2), Offset(offset))
  }

  /** The break sequence: the return address and the flags are pushed, and interrupts are disabled. */
  function Break(s: Machine, back: word): Machine {
    var pushed := Push(PushWord(s, back), Pack(s.regs.p.(x := true)));
    pushed.(regs := pushed.regs.(pc := Word(pushed.memory, 0xfffe, 0xffff),
                                 p := s.regs.p.(i := true, b := true)))
  }

  /** An interrupt is a break that pushes the address of the instruction it displaces, with B clear. */
  function Interrupt(s: Machine): Machine {
    Break(s.(regs := s.regs.(p := s.regs.p.(b := false))), s.regs.pc)
  }

  function Execute(i: Instruction, s: Machine): Machine {
    var r, m := s.regs, s.memory;
    match i
    case Read(mode, op) =>
      s.(regs := Perform(op, r.(pc := Add16(r.pc, Length(mode))), Peek(m, Effective(mode, r, m))))
    case Store(mode, put) =>
      Machine(r.(pc := Add16(r.pc, Length(mode))), Poke(m, Effective(mode, r, m), PutValue(put, r)))
    case Change(mode, c) =>
      var at := Effective(mode, r, m);
      var result := Modify(c, Peek(m, at), r.p);
      Machine(r.(pc := Add16(r.pc, Length(mode)), p := result.p), Poke(m, at, result.value))
    case Inner(op) => s.(regs := PerformInner(op, r.(pc := Add16(r.pc, 1))))
    case Branch(flag, sense) =>
      s.(regs := r.(pc := if Holds(flag, r.p) == sense then BranchTarget(r, Operand(m, r)) else Add16(r.pc, 2)))
    case Pha => Push(s.(regs := r.(pc := Add16(r.pc, 1))), r.a)
    case Php => Push(s.(regs := r.(pc := Add16(r.pc, 1))), Pack(r.p.(x := true)))
    case Pla => s.(regs := LoadA(r.(pc := Add16(r.pc, 1), sp := (r.sp + 1) % 256), Above(s, 1)))
    case Plp => s.(regs := r.(pc := Add16(r.pc, 1), sp := (r.sp + 1) % 256, p := Pulled(Above(s, 1))))
    case Jump => s.(regs := r.(pc := OperandWord(m, r)))
    case JumpIndirect =>
      var at := OperandWord(m, r);
      s.(regs := r.(pc := Word(m, at, InPage(at, (at + 1) % 256))))
    case Jsr =>
      // The high byte of the target is read after the return address has been pushed.
      var pushed := PushWord(s, Add16(r.pc, 2));
      pushed.(regs := pushed.regs.(pc := Peek(pushed.memory, Add16(r.pc, 2)) * 256 + Operand(m, r)))
    case Rts =>
      s.(regs := r.(pc := Add16(Above(s, 2) * 256 + Above(s, 1), 1), sp := (r.sp + 2) % 256))
    case Rti =>
      s.(regs := r.(p := Pulled(Above(s, 1)), pc := Above(s, 3) * 256 + Above(s, 2), sp := (r.sp + 3) % 256))
    case Brk => Break(s, Add16(r.pc, 2))
  }

  /** How many cycles the handlers take. Indexed read-modify-write takes the short cut within a page too. */
  function Cycles(i: Instruction, s: Machine): nat {
    var r, m := s.regs, s.memory;
    match i
    case Read(mode, _) => RouteCycles(mode, Crosses(mode, r, m)) + 1
    case Store(mode, _) => RouteCycles(mode, true) + 1
    case Change(mode, _) => RouteCycles(mode, Crosses(mode, r, m)) + 3
    case Inner(_) => 2
    case Branch(flag, sense) =>
      if Holds(flag, r.p) != sense then 2
      else if Page(BranchTarget(r, Operand(m, r))) == Page(Add16(r.pc, 2)) then 3
      else 4
    case Pha => 3
    case Php => 3
    case Pla => 4
    case Plp => 4
    case Jump => 3
    case JumpIndirect => 5
    case Jsr => 6
    case Rts => 6
    case Rti => 6
    case Brk => 7
  }
}
