// The 6502's handlers, one for each cycle of each opcode. An opcode's handlers are listed in cycle order as
// steps; handlers that do the same thing for different opcodes are one step with parameters.

module Microcode {
  import opened Bits
  import opened CpuAlu

  type word = x: int | 0 <= x < 0x10000

  datatype Regs = Regs(a: byte, x: byte, y: byte, sp: byte, pc: word, p: Flags)

  datatype Pins = Pins(address: word, data: byte, rw: bool, sync: bool)

  /** What a handler reads and writes: registers, the temporary address, the bus and the interrupt being serviced. */
  datatype Core = Core(regs: Regs, temp: word, bus: Pins, servicing: bool)

  datatype Index = IndexX | IndexY

  /** What a cycle that ends a store puts on the data lines; a cycle that ends a read puts nothing there. */
  datatype Put = Nothing | PutA | PutX | PutY

  datatype ReadOp = Ora | AndA | Eor | Adc | Sbc | Lda | Ldx | Ldy | Cmp | Cpx | Cpy | BitTest

  datatype InnerOp =
    | Clc | Sec | Cli | Sei | Clv | Cld | Sed | Nop
    | Tax | Tay | Txa | Tya | Tsx | Txs | Inx | Iny | Dex | Dey
    | OnA(m: Modifier)

  datatype FlagName = FlagN | FlagV | FlagC | FlagZ

  /** One handler. */
  datatype Step =
    | PeekNext | FetchOperand | FetchLow
    | ZeroPage(put: Put) | ZeroPageKeep | ZeroPageIndexed(i: Index, put: Put)
    | AbsoluteAt(put: Put) | AbsoluteIndexed(i: Index, maySkip: bool) | AddIndex(i: Index, put: Put)
    | PointerX | PointerXHigh | PointerYHigh | PointerAt(put: Put)
    | Operate(op: ReadOp) | OperateInner(inner: InnerOp)
    | WriteBack | WriteModified(m: Modifier) | FetchNext
    | BranchTest(flag: FlagName, sense: bool) | BranchNear | BranchFar
    | PushA | PushP | PushPcHigh | PushPcLow
    | BreakHigh | BreakFlags | BreakVectorLow | BreakVectorHigh
    | StackPeek | StackPeekKeep | StackUp | StackUpKeep | StackUpFlags | PullFlags
    | JumpTo | ReturnTo | IndirectLow | IndirectHigh

  datatype Steps = End | Then(step: Step, rest: Steps)

  function Add16(a: nat, b: int): word {
    (a + b) % 0x10000
  }

  function LowByte(a: nat): byte {
    a % 256
  }

  /** `a & 0xff00`. */
  function Page(a: word): word {
    a / 256 * 256
  }

  /** An address in the page of another. */
  function InPage(a: word, low: byte): word {
    a / 256 * 256 + low
  }

  /** `high << 8 | low` where `low` may have more than eight bits. */
  function Join(high: byte, low: word): word {
    if low < 256 then high * 256 + low else Or(high * 256, low) % 0x10000
  }

  function IndexOf(i: Index, r: Regs): byte {
    if i.IndexX? then r.x else r.y
  }

  function Holds(flag: FlagName, p: Flags): bool {
    match flag
    case FlagN => p.n
    case FlagV => p.v
    case FlagC => p.c
    case FlagZ => p.z
  }

  /** A byte as a branch offset. */
  function Offset(v: byte): int {
    if v < 128 then v else v - 256
  }

  function PutValue(put: Put, r: Regs): byte {
    match put
    case PutA => r.a
    case PutX => r.x
    case PutY => r.y
    case Nothing => 0
  }

  // ---------------------------------------------------------------- the operations within a cycle

  function FitAnd(a: byte, b: byte): (r: byte)
    ensures r == And(a, b)
  {
    Powers();
    BitwiseFits(a, b, 8);
    And(a, b)
  }

  function FitOr(a: byte, b: byte): (r: byte)
    ensures r == Or(a, b)
  {
    Powers();
    BitwiseFits(a, b, 8);
    Or(a, b)
  }

  function FitXor(a: byte, b: byte): (r: byte)
    ensures r == Xor(a, b)
  {
    Powers();
    BitwiseFits(a, b, 8);
    Xor(a, b)
  }

  /** AND, OR and EOR work on each bit of the operands by itself. */
  lemma LogicIsBitwise(a: byte, b: byte, i: nat)
    ensures Bit(FitAnd(a, b), i) == (Bit(a, i) && Bit(b, i))
    ensures Bit(FitOr(a, b), i) == (Bit(a, i) || Bit(b, i))
    ensures Bit(FitXor(a, b), i) == (Bit(a, i) != Bit(b, i))
  {
    AndBitwise(a, b, i);
    OrBitwise(a, b, i);
    XorBitwise(a, b, i);
  }

  function LoadA(r: Regs, v: byte): Regs {
    r.(a := v, p := SetNZ(r.p, v))
  }

  function LoadX(r: Regs, v: byte): Regs {
    r.(x := v, p := SetNZ(r.p, v))
  }

  function LoadY(r: Regs, v: byte): Regs {
    r.(y := v, p := SetNZ(r.p, v))
  }

  function Perform(op: ReadOp, r: Regs, v: byte): Regs {
    match op
    case Ora => LoadA(r, FitOr(r.a, v))
    case AndA => LoadA(r, FitAnd(r.a, v))
    case Eor => LoadA(r, FitXor(r.a, v))
    case Adc => r.(a := Add(r.a, v, r.p).value, p := Add(r.a, v, r.p).p)
    case Sbc => r.(a := Sub(r.a, v, r.p).value, p := Sub(r.a, v, r.p).p)
    case Lda => LoadA(r, v)
    case Ldx => LoadX(r, v)
    case Ldy => LoadY(r, v)
    case Cmp => r.(p := Compare(r.a, v, r.p))
    case Cpx => r.(p := Compare(r.x, v, r.p))
    case Cpy => r.(p := Compare(r.y, v, r.p))
    case BitTest => r.(p := r.p.(n := Negative(v), v := v / 64 % 2 == 1, z := FitAnd(v, r.a) == 0))
  }

  function PerformInner(op: InnerOp, r: Regs): Regs {
    match op
    case Clc => r.(p := r.p.(c := false))
    case Sec => r.(p := r.p.(c := true))
    case Cli => r.(p := r.p.(i := false))
    case Sei => r.(p := r.p.(i := true))
    case Clv => r.(p := r.p.(v := false))
    case Cld => r.(p := r.p.(d := false))
    case Sed => r.(p := r.p.(d := true))
    case Nop => r
    case Tax => LoadX(r, r.a)
    case Tay => LoadY(r, r.a)
    case Txa => LoadA(r, r.x)
    case Tya => LoadA(r, r.y)
    case Tsx => LoadX(r, r.sp)
    case Txs => r.(sp := r.x)
    case Inx => LoadX(r, (r.x + 1) % 256)
    case Iny => LoadY(r, (r.y + 1) % 256)
    case Dex => LoadX(r, (r.x - 1) % 256)
    case Dey => LoadY(r, (r.y - 1) % 256)
    case OnA(m) => r.(a := Modify(m, r.a, r.p).value, p := Modify(m, r.a, r.p).p)
  }

  /** What a pulled byte makes of the flags: B always comes back set and X clear. */
  function Pulled(v: byte): Flags {
    Unpack(v).(b := true, x := false)
  }

  // ---------------------------------------------------------------- the handlers

  function Addressed(c: Core, address: word): Core {
    c.(bus := c.bus.(address := address))
  }

  function Placed(c: Core, address: word, put: Put): Core {
    c.(bus := if put.Nothing? then c.bus.(address := address)
              else c.bus.(address := address, data := PutValue(put, c.regs), rw := false))
  }

  /** The address bus at the program counter, with SYNC. */
  function Fetched(c: Core): Core {
    c.(bus := c.bus.(address := c.regs.pc, sync := true))
  }

  /** A push: the address before the stack pointer goes down, and the data to write there. */
  function Pushed(c: Core, v: byte): Core {
    c.(regs := c.regs.(sp := (c.regs.sp - 1) % 256),
       bus := c.bus.(address := 0x100 + c.regs.sp, data := v, rw := false))
  }

  /** The stack pointer goes up and its address is put out. */
  function Popped(c: Core): Core {
    c.(regs := c.regs.(sp := (c.regs.sp + 1) % 256), bus := c.bus.(address := 0x100 + (c.regs.sp + 1) % 256))
  }

  function Advanced(c: Core): Core {
    c.(regs := c.regs.(pc := Add16(c.regs.pc, 1)), bus := c.bus.(address := c.regs.pc))
  }

  function Do(s: Step, c: Core): Core {
    var r, data := c.regs, c.bus.data;
    match s
    case PeekNext => Addressed(c, r.pc)
    case FetchOperand => Advanced(c)
    case FetchLow => Advanced(c).(temp := data)
    case ZeroPage(put) => Placed(c, data, put)
    case ZeroPageKeep => Addressed(c, data).(temp := data)
    case ZeroPageIndexed(i, put) => Placed(c, LowByte(c.temp + IndexOf(i, r)), put)
    case AbsoluteAt(put) => Placed(c, data * 256 + LowByte(c.temp), put)
    case AbsoluteIndexed(i, _) =>
      var temp := Join(data, c.temp);
      Addressed(c, InPage(temp, LowByte(LowByte(temp) + IndexOf(i, r)))).(temp := temp)
    case AddIndex(i, put) => Placed(c, Add16(c.temp, IndexOf(i, r)), put)
    case PointerX => Addressed(c, LowByte(c.temp + r.x)).(temp := LowByte(c.temp + r.x))
    case PointerXHigh => Addressed(c, LowByte(c.temp + 1)).(temp := data)
    case PointerYHigh => Addressed(c, LowByte(LowByte(c.temp) + 1)).(temp := data)
    case PointerAt(put) => Placed(c, Join(data, c.temp), put)
    case Operate(op) => Fetched(c.(regs := Perform(op, r, data)))
    case OperateInner(op) => Fetched(c.(regs := PerformInner(op, r)))
    case WriteBack => c.(temp := data, bus := c.bus.(rw := false))
    case WriteModified(m) =>
      var result := Modify(m, LowByte(c.temp), r.p);
      c.(regs := r.(p := result.p), bus := c.bus.(data := result.value, rw := false),
         temp := if m.Inc? then Add16(LowByte(c.temp), 1) else if m.Dec? then Add16(LowByte(c.temp), -1) else c.temp)
    case FetchNext => Fetched(c)
    case BranchTest(flag, sense) =>
      var at := Addressed(c, r.pc).(temp := Add16(r.pc, Offset(data)));
      if Holds(flag, r.p) == sense then at else Fetched(at)
    case BranchNear =>
      var at := Addressed(c, InPage(r.pc, LowByte(c.temp)));
      if Page(c.temp) == Page(r.pc) then Fetched(at.(regs := r.(pc := c.temp))) else at
    case BranchFar => Fetched(c.(regs := r.(pc := c.temp)))
    case PushA => Pushed(c, r.a)
    case PushP => Pushed(c, Pack(r.p.(x := true)))
    case PushPcHigh => Pushed(c, r.pc / 256)
    case PushPcLow => Pushed(c, LowByte(r.pc))
    case BreakHigh =>
      var pc := if c.servicing then r.pc else Add16(r.pc, 1);
      Pushed(c.(regs := r.(pc := pc)), pc / 256)
    case BreakFlags => Pushed(c, Pack(r.p.(x := true))).(temp := 0xfffe)
    case BreakVectorLow =>
      Addressed(c, c.temp).(temp := Add16(c.temp, 1), regs := r.(p := r.p.(i := true, b := true)), servicing := false)
    case BreakVectorHigh => Addressed(c, c.temp).(temp := data)
    case StackPeek => Addressed(c, 0x100 + r.sp)
    case StackPeekKeep => Addressed(c, 0x100 + r.sp).(temp := data)
    case StackUp => Popped(c)
    case StackUpKeep => Popped(c).(temp := data)
    case StackUpFlags => Popped(c.(regs := r.(p := Pulled(data))))
    case PullFlags => Fetched(c.(regs := r.(p := Pulled(data))))
    case JumpTo => Fetched(c.(regs := r.(pc := data * 256 + LowByte(c.temp))))
    case ReturnTo => Advanced(c.(regs := r.(pc := data * 256 + LowByte(c.temp))))
    case IndirectLow => Addressed(c, Join(data, c.temp)).(temp := Join(data, c.temp))
    case IndirectHigh => Addressed(c, InPage(c.temp, LowByte(LowByte(c.temp) + 1))).(temp := data)
  }

  /** Whether the handler passes over the next one: an indexed address within the page needs no second try. */
  function Skips(s: Step, c: Core): bool {
    match s
    case AbsoluteIndexed(i, maySkip) =>
      maySkip && Join(c.bus.data, c.temp) / 256 == (Join(c.bus.data, c.temp) + IndexOf(i, c.regs)) / 256
    case _ => false
  }

  // ---------------------------------------------------------------- the instructions and their handlers

  datatype Mode =
    | Immediate | Zero | ZeroX | ZeroY | Absolute | AbsoluteX | AbsoluteY | IndirectX | IndirectY

  datatype Instruction =
    | Read(mode: Mode, op: ReadOp)
    | Store(mode: Mode, put: Put)
    | Change(mode: Mode, m: Modifier)
    | Inner(inner: InnerOp)
    | Branch(flag: FlagName, sense: bool)
    | Pha | Php | Pla | Plp
    | Jump | JumpIndirect | Jsr | Rts | Rti | Brk

  /** The steps that bring the operand's address, and a store's data, onto the bus. */
  function Route(mode: Mode, put: Put, rest: Steps): Steps {
    match mode
    case Immediate => Then(FetchOperand, rest)
    case Zero => Then(FetchOperand, Then(ZeroPage(put), rest))
    case ZeroX => Then(FetchOperand, Then(ZeroPageKeep, Then(ZeroPageIndexed(IndexX, put), rest)))
    case ZeroY => Then(FetchOperand, Then(ZeroPageKeep, Then(ZeroPageIndexed(IndexY, put), rest)))
    case Absolute => Then(FetchOperand, Then(FetchLow, Then(AbsoluteAt(put), rest)))
    case AbsoluteX =>
      Then(FetchOperand, Then(FetchLow, Then(AbsoluteIndexed(IndexX, put.Nothing?), Then(AddIndex(IndexX, put), rest))))
    case AbsoluteY =>
      Then(FetchOperand, Then(FetchLow, Then(AbsoluteIndexed(IndexY, put.Nothing?), Then(AddIndex(IndexY, put), rest))))
    case IndirectX =>
      Then(FetchOperand, Then(ZeroPageKeep, Then(PointerX, Then(PointerXHigh, Then(PointerAt(put), rest)))))
    case IndirectY =>
      Then(FetchOperand, Then(ZeroPageKeep, Then(PointerYHigh,
        Then(AbsoluteIndexed(IndexY, put.Nothing?), Then(AddIndex(IndexY, put), rest)))))
  }

  function Program(i: Instruction): Steps {
    match i
    case Read(mode, op) => Route(mode, Nothing, Then(Operate(op), End))
    case Store(mode, put) => Route(mode, put, Then(FetchNext, End))
    case Change(mode, m) => Route(mode, Nothing, Then(WriteBack, Then(WriteModified(m), Then(FetchNext, End))))
    case Inner(op) => Then(PeekNext, Then(OperateInner(op), End))
    case Branch(flag, sense) =>
      Then(FetchOperand, Then(BranchTest(flag, sense), Then(BranchNear, Then(BranchFar, End))))
    case Pha => Then(PeekNext, Then(PushA, Then(FetchNext, End)))
    case Php => Then(PeekNext, Then(PushP, Then(FetchNext, End)))
    case Pla => Then(PeekNext, Then(StackPeek, Then(StackUp, Then(Operate(Lda), End))))
    case Plp => Then(PeekNext, Then(StackPeek, Then(StackUp, Then(PullFlags, End))))
    case Jump => Then(FetchOperand, Then(FetchLow, Then(JumpTo, End)))
    case JumpIndirect =>
      Then(FetchOperand, Then(FetchLow, Then(IndirectLow, Then(IndirectHigh, Then(JumpTo, End)))))
    case Jsr =>
      Then(FetchOperand, Then(StackPeekKeep, Then(PushPcHigh, Then(PushPcLow, Then(PeekNext, Then(JumpTo, End))))))
    case Rts =>
      Then(PeekNext, Then(StackPeek, Then(StackUp, Then(StackUpKeep, Then(ReturnTo, Then(FetchNext, End))))))
    case Rti =>
      Then(PeekNext, Then(StackPeek, Then(StackUp, Then(StackUpFlags, Then(StackUpKeep, Then(JumpTo, End))))))
    case Brk =>
      Then(PeekNext, Then(BreakHigh, Then(PushPcLow, Then(BreakFlags,
        Then(BreakVectorLow, Then(BreakVectorHigh, Then(JumpTo, End)))))))
  }
}
