// What the instructions mean to a program: every register, status bit and memory cell that each of them moves, with
// the status register as the byte that PHP would push.

module InstructionMeaning {
  import opened Bits
  import opened CpuAlu
  import opened Microcode
  import opened Opcodes
  import opened Instructions

  // ---------------------------------------------------------------- the status register as a byte

  /** Bits 7 to 0 are N, V, unused, B, D, I, Z and C. */
  lemma StatusBits(p: Flags)
    ensures var b := Pack(p);
            && Bit(b, 7) == p.n && Bit(b, 6) == p.v && Bit(b, 5) == p.x && Bit(b, 4) == p.b
            && Bit(b, 3) == p.d && Bit(b, 2) == p.i && Bit(b, 1) == p.z && Bit(b, 0) == p.c
  {
    hide Pack, Bit;
    FlagsSurvive(p);
  }

  /** The status byte q is p with bit 7 taken from a result, bit 1 set if that is zero, and the given bits from r. */
  predicate Shows(p: Flags, q: Flags, result: byte, taken: set<nat>, r: Flags) {
    forall i: nat | i < 8 ::
      Bit(Pack(q), i) == if i in taken then Bit(Pack(r), i)
                         else if i == 7 then Bit(result, 7)
                         else if i == 1 then result == 0
                         else Bit(Pack(p), i)
  }

  /** N and Z follow a result and no other bit moves. */
  predicate Follows(p: Flags, q: Flags, result: byte) {
    Shows(p, q, result, {}, p)
  }

  lemma ResultShows(p: Flags, q: Flags, v: byte)
    requires q == p.(n := q.n, z := q.z) && q.n == (128 <= v) && q.z == (v == 0)
    ensures Follows(p, q, v)
  {
    hide Pack, Bit;
    StatusBits(p);
    StatusBits(q);
    TopBit(v);
  }

  /** With the carry, and perhaps V, besides. */
  lemma ResultCarries(p: Flags, q: Flags, v: byte)
    requires q == p.(n := q.n, z := q.z, c := q.c, v := q.v) && q.n == (128 <= v) && q.z == (v == 0)
    ensures Shows(p, q, v, {0, 6}, q)
    ensures q.v == p.v ==> Shows(p, q, v, {0}, q)
  {
    hide Pack, Bit;
    StatusBits(p);
    StatusBits(q);
    TopBit(v);
  }

  /** The program counter so many bytes on. */
  function On(r: Regs, n: nat): word {
    (r.pc + n) % 0x10000
  }

  /** The byte that an instruction works on. */
  function Input(mode: Mode, s: Machine): byte {
    Peek(s.memory, Effective(mode, s.regs, s.memory))
  }

  // ---------------------------------------------------------------- loads, transfers and stores

  datatype Target = ToA | ToX | ToY

  function With(r: Regs, target: Target, v: byte): Regs {
    match target
    case ToA => r.(a := v)
    case ToX => r.(x := v)
    case ToY => r.(y := v)
  }

  function In(r: Regs, target: Target): byte {
    match target
    case ToA => r.a
    case ToX => r.x
    case ToY => r.y
  }

  /** The register holds the byte, N and Z follow it, the program is at the next instruction; nothing else moved. */
  predicate Leaves(s: Machine, t: Machine, target: Target, v: byte, length: nat) {
    && t == s.(regs := With(s.regs, target, v).(pc := On(s.regs, length), p := t.regs.p))
    && Follows(s.regs.p, t.regs.p, v)
  }

  lemma ResultLeft(s: Machine, t: Machine, target: Target, v: byte, length: nat)
    requires t == s.(regs := With(s.regs, target, v).(pc := Add16(s.regs.pc, length), p := SetNZ(s.regs.p, v)))
    ensures Leaves(s, t, target, v, length)
  {
    hide Follows, With;
    ResultShows(s.regs.p, t.regs.p, v);
  }

  /** LDA, LDX and LDY leave the operand in their register. */
  lemma LoadsTakeTheOperand(mode: Mode, s: Machine)
    ensures Leaves(s, Execute(Read(mode, Lda), s), ToA, Input(mode, s), Length(mode))
    ensures Leaves(s, Execute(Read(mode, Ldx), s), ToX, Input(mode, s), Length(mode))
    ensures Leaves(s, Execute(Read(mode, Ldy), s), ToY, Input(mode, s), Length(mode))
  {
    hide Leaves, Effective, Peek, Length, SetNZ, Add16;
    var v, length := Input(mode, s), Length(mode);
    ResultLeft(s, Execute(Read(mode, Lda), s), ToA, v, length);
    ResultLeft(s, Execute(Read(mode, Ldx), s), ToX, v, length);
    ResultLeft(s, Execute(Read(mode, Ldy), s), ToY, v, length);
  }

  /** A transfer leaves its source in its target; TXS alone leaves the flags. */
  lemma TransfersCopy(s: Machine)
    ensures Leaves(s, Execute(Inner(Tax), s), ToX, s.regs.a, 1)
    ensures Leaves(s, Execute(Inner(Tay), s), ToY, s.regs.a, 1)
    ensures Leaves(s, Execute(Inner(Txa), s), ToA, s.regs.x, 1)
    ensures Leaves(s, Execute(Inner(Tya), s), ToA, s.regs.y, 1)
    ensures Leaves(s, Execute(Inner(Tsx), s), ToX, s.regs.sp, 1)
    ensures Execute(Inner(Txs), s) == s.(regs := s.regs.(sp := s.regs.x, pc := On(s.regs, 1)))
  {
    hide Leaves, SetNZ;
    ResultLeft(s, Execute(Inner(Tax), s), ToX, s.regs.a, 1);
    ResultLeft(s, Execute(Inner(Tay), s), ToY, s.regs.a, 1);
    ResultLeft(s, Execute(Inner(Txa), s), ToA, s.regs.x, 1);
    ResultLeft(s, Execute(Inner(Tya), s), ToA, s.regs.y, 1);
    ResultLeft(s, Execute(Inner(Tsx), s), ToX, s.regs.sp, 1);
  }

  /** One cell holds the byte, if it is RAM, and every other cell what it held. */
  predicate Holding(m: Memory, before: Memory, at: word, v: byte) {
    && m.ram == before.ram && |m.cells| == |before.cells|
    && forall b: word :: Peek(m, b) == if b == at && b < m.ram && b < |m.cells| then v else Peek(before, b)
  }

  /** STA, STX and STY put their register at the effective address, and move no register and no flag. */
  lemma StoresPutTheRegister(mode: Mode, s: Machine)
    ensures var r, at := s.regs, Effective(mode, s.regs, s.memory);
            var a, x, y := Execute(Store(mode, PutA), s), Execute(Store(mode, PutX), s), Execute(Store(mode, PutY), s);
            && Holding(a.memory, s.memory, at, r.a) && a.regs == r.(pc := On(r, Length(mode)))
            && Holding(x.memory, s.memory, at, r.x) && x.regs == r.(pc := On(r, Length(mode)))
            && Holding(y.memory, s.memory, at, r.y) && y.regs == r.(pc := On(r, Length(mode)))
  {
    hide Holding, Effective, Length;
    var r, at := s.regs, Effective(mode, s.regs, s.memory);
    Pokes(s.memory, at, r.a);
    Pokes(s.memory, at, r.x);
    Pokes(s.memory, at, r.y);
  }

  lemma Pokes(m: Memory, at: word, v: byte)
    ensures Holding(Poke(m, at, v), m, at, v)
  {
  }

  // ---------------------------------------------------------------- counting

  /** An instruction so many times over. */
  function Times(i: Instruction, s: Machine, n: nat): Machine {
    if n == 0 then s else Execute(i, Times(i, s, n - 1))
  }

  function Stepper(target: Target, up: bool): InnerOp
    requires !target.ToA?
  {
    if target.ToX? then (if up then Inx else Dex) else (if up then Iny else Dey)
  }

  function Stepped(v: byte, up: bool, n: nat): byte {
    if up then (v + n) % 256 else (v - n) % 256
  }

  lemma StepCounts(target: Target, up: bool, s: Machine)
    requires !target.ToA?
    ensures var v := Stepped(In(s.regs, target), up, 1);
            Leaves(s, Execute(Inner(Stepper(target, up)), s), target, v, 1)
  {
    hide Leaves, SetNZ;
    var v := Stepped(In(s.regs, target), up, 1);
    ResultLeft(s, Execute(Inner(Stepper(target, up)), s), target, v, 1);
  }

  /** N INX or INY add n to X or Y modulo 256, DEX and DEY take it off: N and Z follow the sum, nothing else moves. */
  lemma {:induction false} CountingAdds(target: Target, up: bool, s: Machine, n: nat)
    requires !target.ToA? && 0 < n
    ensures var v := Stepped(In(s.regs, target), up, n);
            Leaves(s, Times(Inner(Stepper(target, up)), s, n), target, v, n)
  {
    hide Execute, Leaves, Stepped;
    var i := Inner(Stepper(target, up));
    assert Times(i, s, 0) == s;
    if n == 1 {
      StepCounts(target, up, s);
      assert Times(i, s, 1) == Execute(i, s);
    } else {
      CountingAdds(target, up, s, n - 1);
      var t := Times(i, s, n - 1);
      StepCounts(target, up, t);
      SteppedOn(In(s.regs, target), up, n - 1);
      LeavesTwice(s, t, Execute(i, t), target, Stepped(In(s.regs, target), up, n - 1),
                  Stepped(In(t.regs, target), up, 1), n - 1);
    }
  }

  lemma LeavesTwice(s: Machine, t: Machine, u: Machine, target: Target, v: byte, w: byte, n: nat)
    requires Leaves(s, t, target, v, n) && Leaves(t, u, target, w, 1)
    ensures Leaves(s, u, target, w, n + 1) && In(t.regs, target) == v
  {
    hide Pack, Bit;
  }

  /** So DEX undoes INX and DEY undoes INY, however often, and the other way round. */
  lemma CountingUndone(target: Target, up: bool, s: Machine, n: nat)
    requires !target.ToA? && 0 < n
    ensures In(Times(Inner(Stepper(target, !up)), Times(Inner(Stepper(target, up)), s, n), n).regs, target)
            == In(s.regs, target)
  {
    var t := Times(Inner(Stepper(target, up)), s, n);
    hide Times, Leaves, In, Stepped, Execute, Stepper;
    CountingAdds(target, up, s, n);
    CountingAdds(target, !up, t, n);
    var v := Stepped(In(s.regs, target), up, n);
    LeavesIn(s, t, target, v, n);
    LeavesIn(t, Times(Inner(Stepper(target, !up)), t, n), target, Stepped(v, !up, n), n);
    SteppedBack(In(s.regs, target), up, n);
  }

  lemma LeavesIn(s: Machine, t: Machine, target: Target, v: byte, n: nat)
    requires Leaves(s, t, target, v, n)
    ensures In(t.regs, target) == v
  {
    hide Follows;
  }

  lemma SteppedBack(v: byte, up: bool, n: nat)
    ensures Stepped(Stepped(v, up, n), !up, n) == v
  {
    var k := if up then (v + n) / 256 else (v - n) / 256;
    WholeTurns(v, -k);
  }

  lemma SteppedOn(v: byte, up: bool, n: nat)
    ensures Stepped(Stepped(v, up, n), up, 1) == Stepped(v, up, n + 1)
  {
    var k := if up then (v + n) / 256 else (v - n) / 256;
    var x := if up then v + n + 1 else v - n - 1;
    SameTurn(x, -k);
  }

  lemma WholeTurns(v: byte, k: int)
    ensures (v + 256 * k) % 256 == v
  {
  }

  lemma SameTurn(x: int, k: int)
    ensures (x + 256 * k) % 256 == x % 256
  {
  }

  // ---------------------------------------------------------------- single flags

  /** The status bit that each of these instructions moves. */
  function FlagMoved(op: InnerOp): Option<nat> {
    match op
    case Clc => Some(0)
    case Sec => Some(0)
    case Cli => Some(2)
    case Sei => Some(2)
    case Cld => Some(3)
    case Sed => Some(3)
    case Clv => Some(6)
    case _ => None
  }

  /** The flags with one of those bits set or clear. */
  function Moved(p: Flags, bit: nat, up: bool): Flags {
    match bit
    case 0 => p.(c := up)
    case 2 => p.(i := up)
    case 3 => p.(d := up)
    case _ => p.(v := up)
  }

  lemma MovedBits(p: Flags, bit: nat, up: bool)
    requires bit in {0, 2, 3, 6}
    ensures forall i: nat | i < 8 :: Bit(Pack(Moved(p, bit, up)), i) == if i == bit then up else Bit(Pack(p), i)
  {
    hide Pack, Bit;
    forall i: nat | i < 8
      ensures Bit(Pack(Moved(p, bit, up)), i) == if i == bit then up else Bit(Pack(p), i) {
      StatusBit(p, i);
      StatusBit(Moved(p, bit, up), i);
    }
  }

  function FlagAt(p: Flags, i: nat): bool {
    match i
    case 0 => p.c
    case 1 => p.z
    case 2 => p.i
    case 3 => p.d
    case 4 => p.b
    case 5 => p.x
    case 6 => p.v
    case _ => p.n
  }

  lemma StatusBit(p: Flags, i: nat)
    requires i < 8
    ensures Bit(Pack(p), i) == FlagAt(p, i)
  {
    hide Pack, Bit;
    StatusBits(p);
  }

  /** Each moves its own bit of the status byte, up for SEC, SEI and SED, and no other bit, register or cell. */
  lemma FlagsMoveAlone(op: InnerOp, s: Machine)
    requires FlagMoved(op).Some?
    ensures var t := Execute(Inner(op), s);
            && t == s.(regs := s.regs.(pc := On(s.regs, 1), p := t.regs.p))
            && forall i: nat | i < 8 ::
                 Bit(Pack(t.regs.p), i) == if i == FlagMoved(op).value then op in {Sec, Sei, Sed}
                                           else Bit(Pack(s.regs.p), i)
  {
    hide Pack, Bit;
    var up := op == Sec || op == Sei || op == Sed;
    assert Execute(Inner(op), s).regs.p == Moved(s.regs.p, FlagMoved(op).value, up);
    hide Moved;
    MovedBits(s.regs.p, FlagMoved(op).value, up);
  }

  lemma NopMovesOn(s: Machine)
    ensures Execute(Inner(Nop), s) == s.(regs := s.regs.(pc := On(s.regs, 1)))
  {
  }

  // ---------------------------------------------------------------- logic and arithmetic

  /** ORA, AND and EOR work on each bit of A by itself; N and Z follow A. */
  lemma LogicWorksOnBits(mode: Mode, s: Machine, i: nat)
    ensures var a, v, length := s.regs.a, Input(mode, s), Length(mode);
            var ora, and := Execute(Read(mode, Ora), s), Execute(Read(mode, AndA), s);
            var eor := Execute(Read(mode, Eor), s);
            && Bit(ora.regs.a, i) == (Bit(a, i) || Bit(v, i)) && Leaves(s, ora, ToA, ora.regs.a, length)
            && Bit(and.regs.a, i) == (Bit(a, i) && Bit(v, i)) && Leaves(s, and, ToA, and.regs.a, length)
            && Bit(eor.regs.a, i) == (Bit(a, i) != Bit(v, i)) && Leaves(s, eor, ToA, eor.regs.a, length)
  {
    hide Leaves, Effective, Peek, Length, Bit, SetNZ, Add16;
    var a, v, length := s.regs.a, Input(mode, s), Length(mode);
    LogicIsBitwise(a, v, i);
    ResultLeft(s, Execute(Read(mode, Ora), s), ToA, FitOr(a, v), length);
    ResultLeft(s, Execute(Read(mode, AndA), s), ToA, FitAnd(a, v), length);
    ResultLeft(s, Execute(Read(mode, Eor), s), ToA, FitXor(a, v), length);
  }

  /** Two bytes have no bit in common. */
  predicate Apart(a: nat, b: nat, n: nat) {
    forall i: nat | i < n :: !(Bit(a, i) && Bit(b, i))
  }

  lemma NoCommonBit(a: nat, b: nat, n: nat)
    requires a < Power(n) && b < Power(n)
    ensures And(a, b) == 0 <==> Apart(a, b, n)
  {
    hide Bit;
    if And(a, b) == 0 {
      forall i: nat | i < n ensures !(Bit(a, i) && Bit(b, i)) {
        AndBitwise(a, b, i);
        NoBits(i);
      }
    } else {
      var i := CommonBit(a, b, n);
      assert !Apart(a, b, n);
    }
  }

  lemma {:induction false} CommonBit(a: nat, b: nat, n: nat) returns (i: nat)
    requires a < Power(n) && b < Power(n) && And(a, b) != 0
    ensures i < n && Bit(a, i) && Bit(b, i)
  {
    if a % 2 == 1 && b % 2 == 1 {
      i := 0;
    } else {
      i := CommonBit(a / 2, b / 2, n - 1);
      i := i + 1;
    }
  }

  /** BIT shows bits 7 and 6 of the operand as N and V, and in Z that A has no bit in common with it. */
  lemma BitTests(mode: Mode, s: Machine)
    ensures var t, v := Execute(Read(mode, BitTest), s), Input(mode, s);
            && t == s.(regs := s.regs.(pc := On(s.regs, Length(mode)), p := t.regs.p))
            && forall i: nat | i < 8 ::
                 Bit(Pack(t.regs.p), i) == if i == 7 || i == 6 then Bit(v, i)
                                           else if i == 1 then Apart(v, s.regs.a, 8)
                                           else Bit(Pack(s.regs.p), i)
  {
    hide Effective, Peek, Length, Pack, Bit, And;
    var t, v := Execute(Read(mode, BitTest), s), Input(mode, s);
    StatusBits(s.regs.p);
    StatusBits(t.regs.p);
    TopBit(v);
    SixthBit(v);
    CommonBits(v, s.regs.a);
    assert t.regs.p == s.regs.p.(n := 128 <= v, v := v / 64 % 2 == 1, z := Apart(v, s.regs.a, 8));
    hide Apart, Execute;
    forall i: nat | i < 8
      ensures Bit(Pack(t.regs.p), i) == if i == 7 || i == 6 then Bit(v, i)
                                        else if i == 1 then Apart(v, s.regs.a, 8)
                                        else Bit(Pack(s.regs.p), i) {
    }
  }

  lemma CommonBits(a: byte, b: byte)
    ensures FitAnd(a, b) == 0 <==> Apart(a, b, 8)
  {
    hide Apart, And;
    Powers();
    NoCommonBit(a, b, 8);
  }

  lemma SixthBit(v: byte)
    ensures Bit(v, 6) == (v / 64 % 2 == 1)
  {
    BottomBit(v, 6);
    assert Right(v, 1) == v / 2;
    assert Right(v, 2) == v / 4;
    assert Right(v, 4) == v / 16;
    assert Right(v, 6) == v / 64;
  }

  /** The register that a comparison is with. */
  function Compared(op: ReadOp, r: Regs): Option<byte> {
    match op
    case Cmp => Some(r.a)
    case Cpx => Some(r.x)
    case Cpy => Some(r.y)
    case _ => None
  }

  /**
   * A comparison sets the carry unless the register is less, Z if they are equal and N as bit 7 of the difference:
   * what SBC with the carry set would leave there. V, the register and everything else stay.
   */
  lemma ComparesAsSubtraction(mode: Mode, op: ReadOp, s: Machine)
    requires Compared(op, s.regs).Some?
    ensures var t, v, w := Execute(Read(mode, op), s), Input(mode, s), Compared(op, s.regs).value;
            var less := Machine(s.regs.(a := w, p := s.regs.p.(c := true, d := false)), s.memory);
            && t == s.(regs := s.regs.(pc := On(s.regs, Length(mode)), p := t.regs.p))
            && Shows(s.regs.p, t.regs.p, Difference(w, v), {0}, Execute(Read(mode, Sbc), less).regs.p)
            && Bit(Pack(t.regs.p), 0) == (v <= w) && Bit(Pack(t.regs.p), 1) == (v == w)
  {
    hide Peek, Length, Pack, Bit, Shows;
    var t, v, w := Execute(Read(mode, op), s), Input(mode, s), Compared(op, s.regs).value;
    var less := Machine(s.regs.(a := w, p := s.regs.p.(c := true, d := false)), s.memory);
    var d := Difference(w, v);
    assert Input(mode, less) == v;
    hide Effective, Input;
    var u := Execute(Read(mode, Sbc), less).regs.p;
    assert u == SubBinary(w, v, less.regs.p).p;
    assert t == s.(regs := s.regs.(pc := On(s.regs, Length(mode)), p := Compare(w, v, s.regs.p)));
    hide Execute;
    ResultCarries(s.regs.p, t.regs.p, d);
    StatusBits(t.regs.p);
    StatusBits(u);
    SameTaken(s.regs.p, t.regs.p, d, t.regs.p, u);
  }

  function Difference(w: byte, v: byte): byte {
    (w - v) % 256
  }

  lemma SameTaken(p: Flags, q: Flags, v: byte, r: Flags, u: Flags)
    requires Shows(p, q, v, {0}, r) && Bit(Pack(r), 0) == Bit(Pack(u), 0)
    ensures Shows(p, q, v, {0}, u)
  {
    hide Pack, Bit;
  }

  /** Only A and the flags have moved, and the program is at the next instruction. */
  predicate OnlyA(s: Machine, t: Machine, length: nat) {
    t == s.(regs := s.regs.(a := t.regs.a, pc := On(s.regs, length), p := t.regs.p))
  }

  lemma ReadsAs(mode: Mode, op: ReadOp, s: Machine)
    ensures Execute(Read(mode, op), s)
            == s.(regs := Perform(op, s.regs, Input(mode, s)).(pc := On(s.regs, Length(mode))))
  {
    hide Effective, Peek, Length, FitAnd, FitOr, FitXor, SetNZ, AddDecimal, AddBinary, SubDecimal, SubBinary, Compare;
    hide Negative;
  }

  lemma SumShows(a: byte, v: byte, p: Flags)
    ensures var u := AddBinary(a, v, p);
            && u.value + 256 * One(u.p.c) == a + v + One(p.c) && Shows(p, u.p, u.value, {0, 6}, u.p)
            && u.p.v == !(-128 <= Offset(a) + Offset(v) + One(p.c) < 128)
  {
    hide Shows;
    AddBinaryMeans(a, v, p);
    var u := AddBinary(a, v, p);
    hide AddBinary;
    ResultCarries(p, u.p, u.value);
  }

  lemma DifferenceShows(a: byte, v: byte, p: Flags)
    ensures var u := SubBinary(a, v, p);
            && u.value - 256 * One(!u.p.c) == a - v - One(!p.c) && Shows(p, u.p, u.value, {0, 6}, u.p)
            && u.p.v == !(-128 <= Offset(a) - Offset(v) - One(!p.c) < 128)
  {
    hide Shows;
    SubBinaryMeans(a, v, p);
    var u := SubBinary(a, v, p);
    hide SubBinary;
    ResultCarries(p, u.p, u.value);
  }

  /** ADC in binary mode: the sum with the carry, its carry and signed overflow, and N and Z. */
  lemma AddsBinary(mode: Mode, s: Machine)
    requires !s.regs.p.d
    ensures var r, t, v := s.regs, Execute(Read(mode, Adc), s), Input(mode, s);
            && OnlyA(s, t, Length(mode)) && Shows(r.p, t.regs.p, t.regs.a, {0, 6}, t.regs.p)
            && t.regs.a + 256 * One(t.regs.p.c) == r.a + v + One(r.p.c)
            && t.regs.p.v == !(-128 <= Offset(r.a) + Offset(v) + One(r.p.c) < 128)
  {
    ReadsAs(mode, Adc, s);
    hide Execute, Input, Shows, Length, AddBinary, Offset;
    SumShows(s.regs.a, Input(mode, s), s.regs.p);
  }

  /** SBC in binary mode: the difference less the borrow. */
  lemma SubtractsBinary(mode: Mode, s: Machine)
    requires !s.regs.p.d
    ensures var r, t, v := s.regs, Execute(Read(mode, Sbc), s), Input(mode, s);
            && OnlyA(s, t, Length(mode)) && Shows(r.p, t.regs.p, t.regs.a, {0, 6}, t.regs.p)
            && t.regs.a - 256 * One(!t.regs.p.c) == r.a - v - One(!r.p.c)
            && t.regs.p.v == !(-128 <= Offset(r.a) - Offset(v) - One(!r.p.c) < 128)
  {
    ReadsAs(mode, Sbc, s);
    hide Execute, Input, Shows, Length, SubBinary, Offset;
    DifferenceShows(s.regs.a, Input(mode, s), s.regs.p);
  }

  /** In decimal mode the same on numbers of two digits, with the hundred carried or borrowed. */
  lemma WorksInDecimal(mode: Mode, s: Machine)
    requires s.regs.p.d && IsDecimal(s.regs.a) && IsDecimal(Input(mode, s))
    ensures var r, t, v := s.regs, Execute(Read(mode, Adc), s), Input(mode, s);
            && OnlyA(s, t, Length(mode)) && IsDecimal(t.regs.a)
            && Decimal(t.regs.a) + 100 * One(t.regs.p.c) == Decimal(r.a) + Decimal(v) + One(r.p.c)
    ensures var r, t, v := s.regs, Execute(Read(mode, Sbc), s), Input(mode, s);
            && OnlyA(s, t, Length(mode)) && IsDecimal(t.regs.a)
            && Decimal(t.regs.a) - 100 * One(!t.regs.p.c) == Decimal(r.a) - Decimal(v) - One(!r.p.c)
  {
    ReadsAs(mode, Adc, s);
    ReadsAs(mode, Sbc, s);
    hide Execute, Input, Length, AddDecimal, SubDecimal, Decimal, IsDecimal;
    AddDecimalMeans(s.regs.a, Input(mode, s), s.regs.p);
    SubDecimalMeans(s.regs.a, Input(mode, s), s.regs.p);
  }

  // ---------------------------------------------------------------- shifts, INC and DEC

  /** The number that a shift or a step makes of a byte with the carry in, and the carry out. */
  predicate Modified(m: Modifier, v: byte, p: Flags, w: byte, q: Flags) {
    && Shows(p, q, w, {0}, q)
    && match m
       case Asl => w + 256 * One(q.c) == 2 * v
       case Rol => w + 256 * One(q.c) == 2 * v + One(p.c)
       case Lsr => 2 * w + One(q.c) == v
       case Ror => 2 * w + One(q.c) == v + 256 * One(p.c)
       case Inc => w == (v + 1) % 256 && q.c == p.c
       case Dec => w == (v - 1) % 256 && q.c == p.c
  }

  lemma ModifyIsModified(m: Modifier, v: byte, p: Flags)
    ensures Modified(m, v, p, Modify(m, v, p).value, Modify(m, v, p).p)
  {
    hide Shows;
    var r := Modify(m, v, p);
    ResultCarries(p, r.p, r.value);
    ModifiedMeans(m, v, p);
  }

  /** On A it is A that changes, and on memory the one cell; nothing else moves but the flags. */
  lemma ShiftsAndSteps(mode: Mode, m: Modifier, s: Machine)
    ensures var t := Execute(Inner(OnA(m)), s);
            && t == s.(regs := s.regs.(a := t.regs.a, pc := On(s.regs, 1), p := t.regs.p))
            && Modified(m, s.regs.a, s.regs.p, t.regs.a, t.regs.p)
    ensures var t, at := Execute(Change(mode, m), s), Effective(mode, s.regs, s.memory);
            && t.regs == s.regs.(pc := On(s.regs, Length(mode)), p := t.regs.p)
            && exists w: byte :: Holding(t.memory, s.memory, at, w)
                                 && Modified(m, Input(mode, s), s.regs.p, w, t.regs.p)
  {
    hide Effective, Peek, Length, Modified, Modify, Holding;
    ModifyIsModified(m, s.regs.a, s.regs.p);
    ModifyIsModified(m, Input(mode, s), s.regs.p);
    Pokes(s.memory, Effective(mode, s.regs, s.memory), Modify(m, Input(mode, s), s.regs.p).value);
  }

  // ---------------------------------------------------------------- branches

  /** The status bit that a branch looks at. */
  function BitTested(flag: FlagName): nat {
    match flag
    case FlagN => 7
    case FlagV => 6
    case FlagC => 0
    case FlagZ => 1
  }

  /**
   * A branch is taken if and only if its bit of the status byte has its sense, to the byte after it plus the
   * offset as a two's complement number; otherwise the program goes on there. Nothing else moves. A branch that is
   * not taken takes two cycles, one within the page three and one to another page four.
   */
  lemma BranchesOnItsBit(flag: FlagName, sense: bool, s: Machine)
    ensures var offset := Peek(s.memory, On(s.regs, 1));
            var signed := offset - 256 * One(Bit(offset, 7));
            var t := Execute(Branch(flag, sense), s);
            && t == s.(regs := s.regs.(pc := if Bit(Pack(s.regs.p), BitTested(flag)) == sense
                                             then (s.regs.pc + 2 + signed) % 0x10000
                                             else On(s.regs, 2)))
            && Cycles(Branch(flag, sense), s)
               == if Bit(Pack(s.regs.p), BitTested(flag)) != sense then 2
                  else if t.regs.pc / 256 == On(s.regs, 2) / 256 then 3 else 4
  {
    hide Pack, Bit, Peek, Page, Add16;
    StatusBits(s.regs.p);
    TopBit(Peek(s.memory, On(s.regs, 1)));
    TargetIs(s.regs, Peek(s.memory, On(s.regs, 1)));
    NextIs(s.regs);
    PagesAgree(BranchTarget(s.regs, Peek(s.memory, On(s.regs, 1))), On(s.regs, 2));
  }

  lemma TargetIs(r: Regs, offset: byte)
    ensures BranchTarget(r, offset) == (r.pc + 2 + (offset - 256 * One(128 <= offset))) % 0x10000
  {
  }

  lemma PagesAgree(a: word, b: word)
    ensures Page(a) == Page(b) <==> a / 256 == b / 256
  {
  }

  lemma NextIs(r: Regs)
    ensures Add16(r.pc, 1) == On(r, 1) && Add16(r.pc, 2) == On(r, 2)
  {
  }

  // ---------------------------------------------------------------- the stack and jumps

  /** The byte is the status with bit 5 set. */
  predicate ShowsStatus(v: byte, p: Flags) {
    forall i: nat | i < 8 :: Bit(v, i) == (i == 5 || Bit(Pack(p), i))
  }

  /** PHA and PHP write one byte below the stack's top and move the pointer down; PHP's has bit 5 set. */
  lemma PushesOneByte(s: Machine)
    ensures var r, t := s.regs, Execute(Pha, s);
            && t.regs == r.(pc := On(r, 1), sp := (r.sp - 1) % 256)
            && Holding(t.memory, s.memory, 0x100 + r.sp, r.a)
    ensures var r, t := s.regs, Execute(Php, s);
            && t.regs == r.(pc := On(r, 1), sp := (r.sp - 1) % 256)
            && exists v: byte :: Holding(t.memory, s.memory, 0x100 + r.sp, v) && ShowsStatus(v, r.p)
  {
    hide Holding, Pack, Bit, Peek;
    var r := s.regs;
    Pokes(s.memory, 0x100 + r.sp, r.a);
    Pokes(s.memory, 0x100 + r.sp, Pack(r.p.(x := true)));
    StatusBits(r.p);
    StatusBits(r.p.(x := true));
    assert ShowsStatus(Pack(r.p.(x := true)), r.p);
  }

  /** PLA loads A from the stack's top; PLP loads the status, with bit 4 set and bit 5 clear whatever was there. */
  lemma PullsOneByte(s: Machine)
    ensures var r, t := s.regs, Execute(Pla, s);
            var v := Peek(s.memory, 0x100 + (r.sp + 1) % 256);
            && t == s.(regs := r.(a := v, pc := On(r, 1), sp := (r.sp + 1) % 256, p := t.regs.p))
            && Follows(r.p, t.regs.p, v)
    ensures var r, t := s.regs, Execute(Plp, s);
            var v := Peek(s.memory, 0x100 + (r.sp + 1) % 256);
            && t == s.(regs := r.(pc := On(r, 1), sp := (r.sp + 1) % 256, p := t.regs.p))
            && forall i: nat | i < 8 :: Bit(Pack(t.regs.p), i) == (i == 4 || (i != 5 && Bit(v, i)))
  {
    hide Follows, Pack, Bit, Peek;
    ResultShows(s.regs.p, Execute(Pla, s).regs.p, Peek(s.memory, 0x100 + (s.regs.sp + 1) % 256));
    StatusBits(Execute(Plp, s).regs.p);
  }

  /** Three bytes on the stack, from the given pointer down. */
  function Stacked(m: Memory, sp: byte, first: byte, second: byte, third: byte): Memory {
    Poke(Poke(Poke(m, 0x100 + sp, first), 0x100 + (sp - 1) % 256, second), 0x100 + (sp - 2) % 256, third)
  }

  /**
   * What both kinds of break leave: the address and the given status byte on the stack, the program at the vector,
   * I and B set and every other bit of the status as it was.
   */
  predicate Broken(s: Machine, t: Machine, back: word, status: byte) {
    && t.memory == Stacked(s.memory, s.regs.sp, back / 256, back % 256, status)
    && t.regs == s.regs.(pc := 256 * Peek(t.memory, 0xffff) + Peek(t.memory, 0xfffe),
                         sp := (s.regs.sp - 3) % 256, p := t.regs.p)
    && forall i: nat | i < 8 :: Bit(Pack(t.regs.p), i) == (i == 2 || i == 4 || Bit(Pack(s.regs.p), i))
  }

  lemma Breaks(s: Machine, p: Flags, back: word)
    requires p == s.regs.p || p == s.regs.p.(b := false)
    ensures Broken(s, Break(s.(regs := s.regs.(p := p)), back), back, Pack(p.(x := true)))
  {
    hide Pack, Bit, Peek, Poke;
    var t := Break(s.(regs := s.regs.(p := p)), back);
    var q := s.regs.p.(i := true, b := true);
    assert t.regs.p == q;
    hide Break;
    forall i: nat | i < 8 ensures Bit(Pack(q), i) == (i == 2 || i == 4 || Bit(Pack(s.regs.p), i)) {
      StatusBit(s.regs.p, i);
      StatusBit(q, i);
    }
    BreakMoves(s, p, back);
  }

  lemma BreakMoves(s: Machine, p: Flags, back: word)
    ensures var t := Break(s.(regs := s.regs.(p := p)), back);
            && t.memory == Stacked(s.memory, s.regs.sp, back / 256, back % 256, Pack(p.(x := true)))
            && t.regs == s.regs.(pc := 256 * Peek(t.memory, 0xffff) + Peek(t.memory, 0xfffe),
                                 sp := (s.regs.sp - 3) % 256, p := t.regs.p)
  {
    hide Pack, Peek, Poke;
  }

  /** BRK pushes the address two on and the status with bit 5 set; an interrupt its own address, and bit 4 clear. */
  lemma BreaksAndInterrupts(s: Machine)
    ensures exists v: byte :: Broken(s, Execute(Brk, s), On(s.regs, 2), v) && ShowsStatus(v, s.regs.p)
    ensures exists v: byte :: Broken(s, Interrupt(s), s.regs.pc, v) && ShowsStatus(v, s.regs.p.(b := false))
                              && !Bit(v, 4)
  {
    hide Broken, Break, Pack, Bit;
    var p := s.regs.p;
    Breaks(s, p, On(s.regs, 2));
    Breaks(s, p.(b := false), s.regs.pc);
    StatusBits(p);
    StatusBits(p.(x := true));
    StatusBits(p.(b := false));
    StatusBits(p.(b := false, x := true));
    assert ShowsStatus(Pack(p.(x := true)), p);
    assert ShowsStatus(Pack(p.(b := false, x := true)), p.(b := false));
  }

  /** JMP takes the two bytes after the opcode as its target, or as where the target is, without a page carry. */
  lemma JumpsToTheWord(s: Machine)
    ensures var r, m := s.regs, s.memory;
            var low, high := Peek(m, On(r, 1)), Peek(m, On(r, 2));
            && Execute(Jump, s) == s.(regs := r.(pc := 256 * high + low))
            && Execute(JumpIndirect, s) ==
               s.(regs := r.(pc := 256 * Peek(m, 256 * high + (low + 1) % 256) + Peek(m, 256 * high + low)))
  {
    hide Peek;
  }
}
