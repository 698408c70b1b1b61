// The opcode table: which instruction's handlers each opcode has. Opcodes without handlers stop the machine.

module Opcodes {
  import opened Bits
  import opened CpuAlu
  import opened Microcode

  /** The instructions that some opcode stands for. */
  predicate Documented(i: Instruction) {
    match i
    case Store(mode, put) => !mode.Immediate? && !put.Nothing?
    case Change(mode, _) => mode.Zero? || mode.ZeroX? || mode.Absolute? || mode.AbsoluteX?
    case _ => true
  }

  // ---------------------------------------------------------------- the manual's encoding

  /** Row and column of the opcode matrix within a group: `aaabbbcc`. */
  function Opcode(aaa: nat, bbb: nat, cc: nat): (op: byte)
    requires aaa < 8 && bbb < 8 && cc < 4
  {
    aaa * 32 + bbb * 4 + cc
  }

  /** The column of an addressing mode in the first group, which has all but ZeroY. */
  function ColumnOne(mode: Mode): Option<nat> {
    match mode
    case IndirectX => Some(0)
    case Zero => Some(1)
    case Immediate => Some(2)
    case Absolute => Some(3)
    case IndirectY => Some(4)
    case ZeroX => Some(5)
    case AbsoluteY => Some(6)
    case AbsoluteX => Some(7)
    case ZeroY => None
  }

  /** Its column in the other groups, where an index is X, or Y for the instructions on X. */
  function ColumnTwo(mode: Mode, indexY: bool): Option<nat> {
    match mode
    case Immediate => Some(0)
    case Zero => Some(1)
    case Absolute => Some(3)
    case ZeroX => if indexY then None else Some(5)
    case ZeroY => if indexY then Some(5) else None
    case AbsoluteX => if indexY then None else Some(7)
    case AbsoluteY => if indexY then Some(7) else None
    case _ => None
  }

  function InColumn(aaa: nat, column: Option<nat>, cc: nat): Option<byte>
    requires aaa < 8 && cc < 4 && (column.Some? ==> column.value < 8)
  {
    if column.Some? then Some(Opcode(aaa, column.value, cc)) else None
  }

  /** Only so many of the columns have an instruction. */
  function Only(column: Option<nat>, columns: set<nat>): Option<nat> {
    if column.Some? && column.value in columns then column else None
  }

  function EncodeRead(mode: Mode, op: ReadOp): Option<byte> {
    match op
    case Ora => InColumn(0, ColumnOne(mode), 1)
    case AndA => InColumn(1, ColumnOne(mode), 1)
    case Eor => InColumn(2, ColumnOne(mode), 1)
    case Adc => InColumn(3, ColumnOne(mode), 1)
    case Lda => InColumn(5, ColumnOne(mode), 1)
    case Cmp => InColumn(6, ColumnOne(mode), 1)
    case Sbc => InColumn(7, ColumnOne(mode), 1)
    case Ldx => InColumn(5, ColumnTwo(mode, true), 2)
    case Ldy => InColumn(5, ColumnTwo(mode, false), 0)
    case Cpy => InColumn(6, Only(ColumnTwo(mode, false), {0, 1, 3}), 0)
    case Cpx => InColumn(7, Only(ColumnTwo(mode, false), {0, 1, 3}), 0)
    case BitTest => InColumn(1, Only(ColumnTwo(mode, false), {1, 3}), 0)
  }

  function EncodeStore(mode: Mode, put: Put): Option<byte> {
    match put
    case PutA => InColumn(4, Only(ColumnOne(mode), {0, 1, 3, 4, 5, 6, 7}), 1)
    case PutX => InColumn(4, Only(ColumnTwo(mode, true), {1, 3, 5}), 2)
    case PutY => InColumn(4, Only(ColumnTwo(mode, false), {1, 3, 5}), 0)
    case Nothing => None
  }

  function ModifierRow(m: Modifier): nat {
    match m
    case Asl => 0
    case Rol => 1
    case Lsr => 2
    case Ror => 3
    case Dec => 6
    case Inc => 7
  }

  function EncodeInner(inner: InnerOp): Option<byte> {
    match inner
    case OnA(m) => if ModifierRow(m) < 4 then Some(Opcode(ModifierRow(m), 2, 2)) else None
    case Clc => Some(Opcode(0, 6, 0))
    case Sec => Some(Opcode(1, 6, 0))
    case Cli => Some(Opcode(2, 6, 0))
    case Sei => Some(Opcode(3, 6, 0))
    case Tya => Some(Opcode(4, 6, 0))
    case Clv => Some(Opcode(5, 6, 0))
    case Cld => Some(Opcode(6, 6, 0))
    case Sed => Some(Opcode(7, 6, 0))
    case Dey => Some(Opcode(4, 2, 0))
    case Tay => Some(Opcode(5, 2, 0))
    case Iny => Some(Opcode(6, 2, 0))
    case Inx => Some(Opcode(7, 2, 0))
    case Txa => Some(Opcode(4, 2, 2))
    case Tax => Some(Opcode(5, 2, 2))
    case Dex => Some(Opcode(6, 2, 2))
    case Nop => Some(Opcode(7, 2, 2))
    case Txs => Some(Opcode(4, 6, 2))
    case Tsx => Some(Opcode(5, 6, 2))
  }

  function FlagRow(flag: FlagName): nat {
    match flag
    case FlagN => 0
    case FlagV => 2
    case FlagC => 4
    case FlagZ => 6
  }

  /** An instruction's opcode by the manual's scheme, if it has one. */
  function Encode(i: Instruction): Option<byte> {
    match i
    case Read(mode, op) => EncodeRead(mode, op)
    case Store(mode, put) => EncodeStore(mode, put)
    case Change(mode, m) => InColumn(ModifierRow(m), Only(ColumnTwo(mode, false), {1, 3, 5, 7}), 2)
    case Inner(inner) => EncodeInner(inner)
    case Branch(flag, sense) => Some(Opcode(FlagRow(flag) + if sense then 1 else 0, 4, 0))
    case Brk => Some(Opcode(0, 0, 0))
    case Jsr => Some(Opcode(1, 0, 0))
    case Rti => Some(Opcode(2, 0, 0))
    case Rts => Some(Opcode(3, 0, 0))
    case Php => Some(Opcode(0, 2, 0))
    case Plp => Some(Opcode(1, 2, 0))
    case Pha => Some(Opcode(2, 2, 0))
    case Pla => Some(Opcode(3, 2, 0))
    case Jump => Some(Opcode(2, 3, 0))
    case JumpIndirect => Some(Opcode(3, 3, 0))
  }

  // ---------------------------------------------------------------- the handlers' table

  function From00(op: byte): (i: Option<Instruction>)
    ensures i.Some? ==> Documented(i.value) && Encode(i.value) == Some(op)
  {
    if op == 0x00 then Some(Brk)
    else if op == 0x01 then Some(Read(IndirectX, Ora))
    else if op == 0x05 then Some(Read(Zero, Ora))
    else if op == 0x06 then Some(Change(Zero, Asl))
    else if op == 0x08 then Some(Php)
    else if op == 0x09 then Some(Read(Immediate, Ora))
    else if op == 0x0a then Some(Inner(OnA(Asl)))
    else if op == 0x0d then Some(Read(Absolute, Ora))
    else if op == 0x0e then Some(Change(Absolute, Asl))
    else if op == 0x10 then Some(Branch(FlagN, false))
    else if op == 0x11 then Some(Read(IndirectY, Ora))
    else if op == 0x15 then Some(Read(ZeroX, Ora))
    else if op == 0x16 then Some(Change(ZeroX, Asl))
    else if op == 0x18 then Some(Inner(Clc))
    else if op == 0x19 then Some(Read(AbsoluteY, Ora))
    else if op == 0x1d then Some(Read(AbsoluteX, Ora))
    else if op == 0x1e then Some(Change(AbsoluteX, Asl))
    else None
  }

  function From20(op: byte): (i: Option<Instruction>)
    ensures i.Some? ==> Documented(i.value) && Encode(i.value) == Some(op)
  {
    if op == 0x20 then Some(Jsr)
    else if op == 0x21 then Some(Read(IndirectX, AndA))
    else if op == 0x24 then Some(Read(Zero, BitTest))
    else if op == 0x25 then Some(Read(Zero, AndA))
    else if op == 0x26 then Some(Change(Zero, Rol))
    else if op == 0x28 then Some(Plp)
    else if op == 0x29 then Some(Read(Immediate, AndA))
    else if op == 0x2a then Some(Inner(OnA(Rol)))
    else if op == 0x2c then Some(Read(Absolute, BitTest))
    else if op == 0x2d then Some(Read(Absolute, AndA))
    else if op == 0x2e then Some(Change(Absolute, Rol))
    else if op == 0x30 then Some(Branch(FlagN, true))
    else if op == 0x31 then Some(Read(IndirectY, AndA))
    else if op == 0x35 then Some(Read(ZeroX, AndA))
    else if op == 0x36 then Some(Change(ZeroX, Rol))
    else if op == 0x38 then Some(Inner(Sec))
    else if op == 0x39 then Some(Read(AbsoluteY, AndA))
    else if op == 0x3d then Some(Read(AbsoluteX, AndA))
    else if op == 0x3e then Some(Change(AbsoluteX, Rol))
    else None
  }

  function From40(op: byte): (i: Option<Instruction>)
    ensures i.Some? ==> Documented(i.value) && Encode(i.value) == Some(op)
  {
    if op == 0x40 then Some(Rti)
    else if op == 0x41 then Some(Read(IndirectX, Eor))
    else if op == 0x45 then Some(Read(Zero, Eor))
    else if op == 0x46 then Some(Change(Zero, Lsr))
    else if op == 0x48 then Some(Pha)
    else if op == 0x49 then Some(Read(Immediate, Eor))
    else if op == 0x4a then Some(Inner(OnA(Lsr)))
    else if op == 0x4c then Some(Jump)
    else if op == 0x4d then Some(Read(Absolute, Eor))
    else if op == 0x4e then Some(Change(Absolute, Lsr))
    else if op == 0x50 then Some(Branch(FlagV, false))
    else if op == 0x51 then Some(Read(IndirectY, Eor))
    else if op == 0x55 then Some(Read(ZeroX, Eor))
    else if op == 0x56 then Some(Change(ZeroX, Lsr))
    else if op == 0x58 then Some(Inner(Cli))
    else if op == 0x59 then Some(Read(AbsoluteY, Eor))
    else if op == 0x5d then Some(Read(AbsoluteX, Eor))
    else if op == 0x5e then Some(Change(AbsoluteX, Lsr))
    else None
  }

  function From60(op: byte): (i: Option<Instruction>)
    ensures i.Some? ==> Documented(i.value) && Encode(i.value) == Some(op)
  {
    if op == 0x60 then Some(Rts)
    else if op == 0x61 then Some(Read(IndirectX, Adc))
    else if op == 0x65 then Some(Read(Zero, Adc))
    else if op == 0x66 then Some(Change(Zero, Ror))
    else if op == 0x68 then Some(Pla)
    else if op == 0x69 then Some(Read(Immediate, Adc))
    else if op == 0x6a then Some(Inner(OnA(Ror)))
    else if op == 0x6c then Some(JumpIndirect)
    else if op == 0x6d then Some(Read(Absolute, Adc))
    else if op == 0x6e then Some(Change(Absolute, Ror))
    else if op == 0x70 then Some(Branch(FlagV, true))
    else if op == 0x71 then Some(Read(IndirectY, Adc))
    else if op == 0x75 then Some(Read(ZeroX, Adc))
    else if op == 0x76 then Some(Change(ZeroX, Ror))
    else if op == 0x78 then Some(Inner(Sei))
    else if op == 0x79 then Some(Read(AbsoluteY, Adc))
    else if op == 0x7d then Some(Read(AbsoluteX, Adc))
    else if op == 0x7e then Some(Change(AbsoluteX, Ror))
    else None
  }

  function From80(op: byte): (i: Option<Instruction>)
    ensures i.Some? ==> Documented(i.value) && Encode(i.value) == Some(op)
  {
    if op == 0x81 then Some(Store(IndirectX, PutA))
    else if op == 0x84 then Some(Store(Zero, PutY))
    else if op == 0x85 then Some(Store(Zero, PutA))
    else if op == 0x86 then Some(Store(Zero, PutX))
    else if op == 0x88 then Some(Inner(Dey))
    else if op == 0x8a then Some(Inner(Txa))
    else if op == 0x8c then Some(Store(Absolute, PutY))
    else if op == 0x8d then Some(Store(Absolute, PutA))
    else if op == 0x8e then Some(Store(Absolute, PutX))
    else if op == 0x90 then Some(Branch(FlagC, false))
    else if op == 0x91 then Some(Store(IndirectY, PutA))
    else if op == 0x94 then Some(Store(ZeroX, PutY))
    else if op == 0x95 then Some(Store(ZeroX, PutA))
    else if op == 0x96 then Some(Store(ZeroY, PutX))
    else if op == 0x98 then Some(Inner(Tya))
    else if op == 0x99 then Some(Store(AbsoluteY, PutA))
    else if op == 0x9a then Some(Inner(Txs))
    else if op == 0x9d then Some(Store(AbsoluteX, PutA))
    else None
  }

  function FromA0(op: byte): (i: Option<Instruction>)
    ensures i.Some? ==> Documented(i.value) && Encode(i.value) == Some(op)
  {
    if op == 0xa0 then Some(Read(Immediate, Ldy))
    else if op == 0xa1 then Some(Read(IndirectX, Lda))
    else if op == 0xa2 then Some(Read(Immediate, Ldx))
    else if op == 0xa4 then Some(Read(Zero, Ldy))
    else if op == 0xa5 then Some(Read(Zero, Lda))
    else if op == 0xa6 then Some(Read(Zero, Ldx))
    else if op == 0xa8 then Some(Inner(Tay))
    else if op == 0xa9 then Some(Read(Immediate, Lda))
    else if op == 0xaa then Some(Inner(Tax))
    else if op == 0xac then Some(Read(Absolute, Ldy))
    else if op == 0xad then Some(Read(Absolute, Lda))
    else if op == 0xae then Some(Read(Absolute, Ldx))
    else if op == 0xb0 then Some(Branch(FlagC, true))
    else if op == 0xb1 then Some(Read(IndirectY, Lda))
    else if op == 0xb4 then Some(Read(ZeroX, Ldy))
    else if op == 0xb5 then Some(Read(ZeroX, Lda))
    else if op == 0xb6 then Some(Read(ZeroY, Ldx))
    else if op == 0xb8 then Some(Inner(Clv))
    else if op == 0xb9 then Some(Read(AbsoluteY, Lda))
    else if op == 0xba then Some(Inner(Tsx))
    else if op == 0xbc then Some(Read(AbsoluteX, Ldy))
    else if op == 0xbd then Some(Read(AbsoluteX, Lda))
    else if op == 0xbe then Some(Read(AbsoluteY, Ldx))
    else None
  }

  function FromC0(op: byte): (i: Option<Instruction>)
    ensures i.Some? ==> Documented(i.value) && Encode(i.value) == Some(op)
  {
    if op == 0xc0 then Some(Read(Immediate, Cpy))
    else if op == 0xc1 then Some(Read(IndirectX, Cmp))
    else if op == 0xc4 then Some(Read(Zero, Cpy))
    else if op == 0xc5 then Some(Read(Zero, Cmp))
    else if op == 0xc6 then Some(Change(Zero, Dec))
    else if op == 0xc8 then Some(Inner(Iny))
    else if op == 0xc9 then Some(Read(Immediate, Cmp))
    else if op == 0xca then Some(Inner(Dex))
    else if op == 0xcc then Some(Read(Absolute, Cpy))
    else if op == 0xcd then Some(Read(Absolute, Cmp))
    else if op == 0xce then Some(Change(Absolute, Dec))
    else if op == 0xd0 then Some(Branch(FlagZ, false))
    else if op == 0xd1 then Some(Read(IndirectY, Cmp))
    else if op == 0xd5 then Some(Read(ZeroX, Cmp))
    else if op == 0xd6 then Some(Change(ZeroX, Dec))
    else if op == 0xd8 then Some(Inner(Cld))
    else if op == 0xd9 then Some(Read(AbsoluteY, Cmp))
    else if op == 0xdd then Some(Read(AbsoluteX, Cmp))
    else if op == 0xde then Some(Change(AbsoluteX, Dec))
    else None
  }

  function FromE0(op: byte): (i: Option<Instruction>)
    ensures i.Some? ==> Documented(i.value) && Encode(i.value) == Some(op)
  {
    if op == 0xe0 then Some(Read(Immediate, Cpx))
    else if op == 0xe1 then Some(Read(IndirectX, Sbc))
    else if op == 0xe4 then Some(Read(Zero, Cpx))
    else if op == 0xe5 then Some(Read(Zero, Sbc))
    else if op == 0xe6 then Some(Change(Zero, Inc))
    else if op == 0xe8 then Some(Inner(Inx))
    else if op == 0xe9 then Some(Read(Immediate, Sbc))
    else if op == 0xea then Some(Inner(Nop))
    else if op == 0xec then Some(Read(Absolute, Cpx))
    else if op == 0xed then Some(Read(Absolute, Sbc))
    else if op == 0xee then Some(Change(Absolute, Inc))
    else if op == 0xf0 then Some(Branch(FlagZ, true))
    else if op == 0xf1 then Some(Read(IndirectY, Sbc))
    else if op == 0xf5 then Some(Read(ZeroX, Sbc))
    else if op == 0xf6 then Some(Change(ZeroX, Inc))
    else if op == 0xf8 then Some(Inner(Sed))
    else if op == 0xf9 then Some(Read(AbsoluteY, Sbc))
    else if op == 0xfd then Some(Read(AbsoluteX, Sbc))
    else if op == 0xfe then Some(Change(AbsoluteX, Inc))
    else None
  }

  /** The instruction whose handlers an opcode has: it is the one that the manual encodes so. */
  function Decode(op: byte): (i: Option<Instruction>)
    ensures i.Some? ==> Documented(i.value) && Encode(i.value) == Some(op)
  {
    if op < 0x20 then From00(op)
    else if op < 0x40 then From20(op)
    else if op < 0x60 then From40(op)
    else if op < 0x80 then From60(op)
    else if op < 0xA0 then From80(op)
    else if op < 0xC0 then FromA0(op)
    else if op < 0xE0 then FromC0(op)
    else FromE0(op)
  }

  /** The instruction's handlers are where the manual's encoding has its opcode, if it has one. */
  predicate Decodes(i: Instruction) {
    Encode(i).Some? ==> Decode(Encode(i).value) == Some(i)
  }

  lemma LogicDecodes(mode: Mode, op: ReadOp)
    requires op.Ora? || op.AndA? || op.Eor? || op.BitTest?
    ensures Decodes(Read(mode, op))
  {
    match op
    case Ora =>
    case AndA =>
    case Eor =>
    case BitTest =>
  }

  lemma SumsDecode(mode: Mode, op: ReadOp)
    requires op.Adc? || op.Sbc?
    ensures Decodes(Read(mode, op))
  {
    match op
    case Adc =>
    case Sbc =>
  }

  lemma ComparisonsDecode(mode: Mode, op: ReadOp)
    requires op.Cmp? || op.Cpx? || op.Cpy?
    ensures Decodes(Read(mode, op))
  {
    match op
    case Cmp =>
    case Cpx =>
    case Cpy =>
  }

  lemma LoadsDecode(mode: Mode, op: ReadOp)
    requires op.Lda? || op.Ldx? || op.Ldy?
    ensures Decodes(Read(mode, op))
  {
    match op
    case Lda =>
    case Ldx =>
    case Ldy =>
  }

  lemma StoresDecode(mode: Mode, put: Put)
    ensures Decodes(Store(mode, put))
  {
    match put
    case PutA =>
    case PutX =>
    case PutY =>
    case Nothing =>
  }

  lemma LeftsDecode(mode: Mode, m: Modifier)
    requires m.Asl? || m.Rol?
    ensures Decodes(Change(mode, m))
  {
    match m
    case Asl =>
    case Rol =>
  }

  lemma RightsDecode(mode: Mode, m: Modifier)
    requires m.Lsr? || m.Ror?
    ensures Decodes(Change(mode, m))
  {
    match m
    case Lsr =>
    case Ror =>
  }

  lemma StepsDecode(mode: Mode, m: Modifier)
    requires m.Inc? || m.Dec?
    ensures Decodes(Change(mode, m))
  {
    match m
    case Inc =>
    case Dec =>
  }

  predicate SetsFlag(inner: InnerOp) {
    inner.Clc? || inner.Sec? || inner.Cli? || inner.Sei? || inner.Clv? || inner.Cld? || inner.Sed? || inner.Nop?
  }

  lemma FlagsDecode(inner: InnerOp)
    requires SetsFlag(inner)
    ensures Decodes(Inner(inner))
  {
    match inner
    case Clc =>
    case Sec =>
    case Cli =>
    case Sei =>
    case Clv =>
    case Cld =>
    case Sed =>
    case Nop =>
  }

  lemma TransfersDecode(inner: InnerOp)
    requires !inner.OnA? && !SetsFlag(inner)
    ensures Decodes(Inner(inner))
  {
    match inner
    case Tax =>
    case Tay =>
    case Txa =>
    case Tya =>
    case Tsx =>
    case Txs =>
    case Inx =>
    case Iny =>
    case Dex =>
    case Dey =>
  }

  lemma ShiftsDecode(m: Modifier)
    ensures Decodes(Inner(OnA(m)))
  {
    match m
    case Asl =>
    case Rol =>
    case Lsr =>
    case Ror =>
    case Inc =>
    case Dec =>
  }

  lemma BranchesDecode(flag: FlagName, sense: bool)
    ensures Decodes(Branch(flag, sense))
  {
    match flag
    case FlagN => if sense {}
    case FlagV => if sense {}
    case FlagC => if sense {}
    case FlagZ => if sense {}
  }

  lemma CallsDecode()
    ensures Decodes(Brk) && Decodes(Jsr) && Decodes(Rts) && Decodes(Rti)
  {
  }

  lemma JumpsDecode()
    ensures Decodes(Jump) && Decodes(JumpIndirect)
  {
  }

  lemma StackDecodes()
    ensures Decodes(Pha) && Decodes(Php) && Decodes(Pla) && Decodes(Plp)
  {
  }

  /** Decoding is the inverse of the manual's encoding: every instruction that has an opcode has its handlers there. */
  lemma EveryOpcodeDecodes(i: Instruction)
    ensures Encode(i).Some? ==> Decode(Encode(i).value) == Some(i)
  {
    assert Decodes(i) by {
      hide Decodes;
      match i
      case Read(mode, op) =>
        if op.Ora? || op.AndA? || op.Eor? || op.BitTest? { LogicDecodes(mode, op); }
        else if op.Lda? || op.Ldx? || op.Ldy? { LoadsDecode(mode, op); }
        else if op.Adc? || op.Sbc? { SumsDecode(mode, op); }
        else { ComparisonsDecode(mode, op); }
      case Store(mode, put) => StoresDecode(mode, put);
      case Change(mode, m) =>
        if m.Asl? || m.Rol? { LeftsDecode(mode, m); }
        else if m.Lsr? || m.Ror? { RightsDecode(mode, m); }
        else { StepsDecode(mode, m); }
      case Inner(inner) =>
        if inner.OnA? { ShiftsDecode(inner.m); }
        else if SetsFlag(inner) { FlagsDecode(inner); }
        else { TransfersDecode(inner); }
      case Branch(flag, sense) => BranchesDecode(flag, sense);
      case _ =>
        CallsDecode();
        JumpsDecode();
        StackDecodes();
    }
  }
}
