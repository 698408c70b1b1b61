// The 6502 as the object that the board ticks, with the bus it drives: the tick, the reset sequence, the poll
// and each handler as methods that update fields in the source's order, proved to do what CpuTicks says.

module CpuChip {
  import opened Bits
  import opened CpuAlu
  import opened Microcode
  import opened Opcodes
  import opened CpuCycles
  import opened CpuTicks

  class Bus {
    var pins: Pins
    var reset: bool

    constructor ()
      ensures pins == Pins(0, 0, false, false) && !reset
    {
      pins, reset := Pins(0, 0, false, false), false;
    }

    method SetAddress(address: word)
      modifies this`pins
      ensures pins == old(pins).(address := address)
    {
      pins := pins.(address := address);
    }

    method SetData(data: byte)
      modifies this`pins
      ensures pins == old(pins).(data := data)
    {
      pins := pins.(data := data);
    }

    method SetRead(rw: bool)
      modifies this`pins
      ensures pins == old(pins).(rw := rw)
    {
      pins := pins.(rw := rw);
    }

    method SetSync(sync: bool)
      modifies this`pins
      ensures pins == old(pins).(sync := sync)
    {
      pins := pins.(sync := sync);
    }
  }

  class M6502 {
    var regs: Regs
    var temp: word
    var servicing: bool
    var opcode: byte
    var cycle: nat
    var resetting: bool
    var resetCycle: nat
    var irq: bool

    constructor ()
      ensures regs == Regs(0, 0, 0, 0, 0, Unpack(0)) && temp == 0 && !servicing && opcode == 0 && cycle == 0
      ensures !resetting && resetCycle == 0 && !irq
    {
      regs, temp, servicing, opcode, cycle := Regs(0, 0, 0, 0, 0, Unpack(0)), 0, false, 0, 0;
      resetting, resetCycle, irq := false, 0, false;
    }

    function CoreOn(bus: Bus): Core
      reads this, bus
    {
      Core(regs, temp, bus.pins, servicing)
    }

    function Now(bus: Bus): Cpu
      reads this, bus
    {
      Cpu(CoreOn(bus), opcode, cycle, resetting, resetCycle)
    }

    // -------------------------------------------------------------- arithmetic

    method SetFlagsNZ(v: byte)
      modifies this`regs
      ensures regs == old(regs).(p := SetNZ(old(regs.p), v))
    {
      regs := regs.(p := regs.p.(n := false, z := false));
      if v != 0 {
        regs := regs.(p := regs.p.(n := Negative(v)));
      } else {
        regs := regs.(p := regs.p.(z := true));
      }
    }

    method DoCompare(register: byte, v: byte)
      modifies this`regs
      ensures regs == old(regs).(p := Compare(register, v, old(regs.p)))
    {
      SetFlagsNZ((register - v) % 256);
      if register - v < 0 {
        regs := regs.(p := regs.p.(c := false));
      } else {
        regs := regs.(p := regs.p.(c := true));
      }
    }

    /** The low digit's sum, and the high digit's before its own carry is seen. */
    method AddDigits(v: byte, carry: nat) returns (al: nat, ah: nat)
      ensures al == LowSum(regs.a % 16, v % 16, carry) && ah == HighSum(regs.a / 16, v / 16, al)
    {
      al := regs.a % 16 + v % 16 + carry;
      if al > 9 { al := al + 6; }
      ah := regs.a / 16 + v / 16 + if al > 15 then 1 else 0;
    }

    /** A high digit, corrected. */
    method CorrectUp(digit: nat) returns (corrected: nat)
      ensures corrected == PastNine(digit)
    {
      corrected := digit;
      if digit > 9 { corrected := digit + 6; }
    }

    /** The flags of a decimal sum with the high digit as yet uncorrected: all but carry. */
    method SumFlags(v: byte, ah: nat) returns (p: Flags)
      ensures var zero, high := (regs.a + v + CarryIn(regs.p)) % 256 == 0, ah / 8 % 2 == 1;
              p == regs.p.(z := zero, n := !zero && high,
                           v := Negative(regs.a) == Negative(v) && Negative(regs.a) != high)
    {
      hide Negative;
      var zero := (regs.a + v + CarryIn(regs.p)) % 256 == 0;
      p := regs.p.(z := zero, n := !zero && ah / 8 % 2 == 1);
      p := p.(v := Negative(regs.a) == Negative(v) && Negative(regs.a) != (ah / 8 % 2 == 1));
    }

    method DoAddDecimal(v: byte)
      modifies this`regs
      ensures regs == old(regs).(a := AddDecimal(old(regs.a), v, old(regs.p)).value,
                                 p := AddDecimal(old(regs.a), v, old(regs.p)).p)
    {
      hide LowSum, HighSum, Negative, PastNine;
      var al, ah := AddDigits(v, CarryIn(regs.p));
      var p := SumFlags(v, ah);
      ah := CorrectUp(ah);
      regs := regs.(a := ah % 16 * 16 + al % 16, p := p.(c := ah > 15));
    }

    method DoAddBinary(v: byte)
      modifies this`regs
      ensures regs == old(regs).(a := AddBinary(old(regs.a), v, old(regs.p)).value,
                                 p := AddBinary(old(regs.a), v, old(regs.p)).p)
    {
      hide Negative;
      var sum := regs.a + v + CarryIn(regs.p);
      var p := regs.p.(v := Negative(regs.a) == Negative(v) && Negative(regs.a) != Negative(sum % 256));
      p := p.(c := sum >= 256);
      regs := regs.(a := sum % 256, p := p);
      SetFlagsNZ(sum % 256);
    }

    /** The low digit's difference, and the high digit's before its own borrow is seen. */
    method SubDigits(v: byte, borrow: nat) returns (al: int, ah: int)
      ensures al == LowDifference(regs.a % 16, v % 16, borrow) && ah == HighDifference(regs.a / 16, v / 16, al)
    {
      al := regs.a % 16 - v % 16 - borrow;
      if al < 0 { al := al - 6; }
      ah := regs.a / 16 - v / 16 - if al < 0 then 1 else 0;
    }

    /** A high digit, corrected down where it borrows. */
    method CorrectDown(digit: int) returns (corrected: int)
      ensures corrected == BelowZero(digit)
    {
      corrected := digit;
      if digit < 0 { corrected := digit - 6; }
    }

    /** The flags of a decimal difference are those of the binary one. */
    method DifferenceFlags(v: byte) returns (p: Flags)
      ensures p == SubBinary(regs.a, v, regs.p).p
    {
      hide Negative;
      var diff := regs.a - v - (1 - CarryIn(regs.p));
      p := regs.p.(z := diff % 256 == 0, n := diff % 256 != 0 && Negative(diff % 256));
      p := p.(v := Negative(regs.a) != Negative(v) && Negative(regs.a) != Negative(diff % 256));
      p := p.(c := diff >= 0);
      ZeroIsPositive();
    }

    lemma ZeroIsPositive()
      ensures !Negative(0)
    {
    }

    method DoSubDecimal(v: byte)
      modifies this`regs
      ensures regs == old(regs).(a := SubDecimal(old(regs.a), v, old(regs.p)).value,
                                 p := SubDecimal(old(regs.a), v, old(regs.p)).p)
    {
      DecimalFlags(regs.a, v, regs.p);
      hide LowDifference, HighDifference, BelowZero, Negative, SubBinary;
      var al, ah := SubDigits(v, 1 - CarryIn(regs.p));
      var p := DifferenceFlags(v);
      ah := CorrectDown(ah);
      regs := regs.(a := ah % 16 * 16 + al % 16, p := p);
    }

    method DoSubBinary(v: byte)
      modifies this`regs
      ensures regs == old(regs).(a := SubBinary(old(regs.a), v, old(regs.p)).value,
                                 p := SubBinary(old(regs.a), v, old(regs.p)).p)
    {
      hide Negative;
      var diff := regs.a - v - (1 - CarryIn(regs.p));
      var p := regs.p.(v := Negative(regs.a) != Negative(v) && Negative(regs.a) != Negative(diff % 256));
      p := p.(c := diff >= 0);
      regs := regs.(a := diff % 256, p := p);
      SetFlagsNZ(diff % 256);
    }

    method DoAdd(v: byte)
      modifies this`regs
      ensures regs == old(regs).(a := Add(old(regs.a), v, old(regs.p)).value, p := Add(old(regs.a), v, old(regs.p)).p)
    {
      hide AddBinary, AddDecimal;
      if regs.p.d { DoAddDecimal(v); } else { DoAddBinary(v); }
    }

    method DoSub(v: byte)
      modifies this`regs
      ensures regs == old(regs).(a := Sub(old(regs.a), v, old(regs.p)).value, p := Sub(old(regs.a), v, old(regs.p)).p)
    {
      hide SubBinary, SubDecimal;
      if regs.p.d { DoSubDecimal(v); } else { DoSubBinary(v); }
    }

    /** The bits of a shift, of a rotation through the carry, or of a step. */
    method ShiftBits(m: Modifier, v: byte) returns (value: byte, carry: bool)
      ensures value == ModifiedValue(m, v, regs.p) && carry == ModifiedCarry(m, v, regs.p)
      ensures m.Asl? ==> value + (if carry then 256 else 0) == 2 * v
      ensures m.Lsr? ==> 2 * value + (if carry then 1 else 0) == v
      ensures m.Rol? ==> value + (if carry then 256 else 0) == 2 * v + CarryIn(regs.p)
      ensures m.Ror? ==> 2 * value + (if carry then 1 else 0) == v + 256 * CarryIn(regs.p)
    {
      match m {
        case Asl =>
          carry := 0x80 <= v;
          value := v * 2 % 256;
        case Lsr =>
          carry := v % 2 == 1;
          value := v / 2;
        case Rol =>
          carry := 0x80 <= v;
          value := v * 2 % 256 + CarryIn(regs.p);
        case Ror =>
          carry := v % 2 == 1;
          value := v / 2 + if regs.p.c then 0x80 else 0;
        case Inc =>
          carry := regs.p.c;
          value := (v + 1) % 256;
        case Dec =>
          carry := regs.p.c;
          value := (v - 1) % 256;
      }
    }

    /**
     * The shifts and rotations, and the increment and decrement of read-modify-write: a left shift doubles and a right
     * shift halves the byte, with the bit that falls out as the carry.
     */
    method DoModify(m: Modifier, v: byte) returns (value: byte)
      modifies this`regs
      ensures value == Modify(m, v, old(regs.p)).value
      ensures regs == old(regs).(p := Modify(m, v, old(regs.p)).p)
      ensures m.Asl? || m.Rol? ==> value + 256 * CarryIn(regs.p) == 2 * v + TakenIn(m, old(regs.p))
      ensures m.Lsr? || m.Ror? ==> 2 * value + CarryIn(regs.p) == v + 256 * TakenIn(m, old(regs.p))
    {
      hide ModifiedValue, ModifiedCarry, Negative;
      ModifyMeans(m, v, regs.p);
      var carry;
      value, carry := ShiftBits(m, v);
      regs := regs.(p := regs.p.(c := carry));
      SetFlagsNZ(value);
    }

    method LoadInto(put: Put, v: byte)
      requires !put.Nothing?
      modifies this`regs
      ensures regs == if put.PutA? then LoadA(old(regs), v)
                      else if put.PutX? then LoadX(old(regs), v) else LoadY(old(regs), v)
    {
      match put {
        case PutA => regs := regs.(a := v);
        case PutX => regs := regs.(x := v);
        case PutY => regs := regs.(y := v);
        case Nothing => assert false;
      }
      SetFlagsNZ(v);
    }

    method DoOperate(op: ReadOp, v: byte)
      modifies this`regs
      ensures regs == Perform(op, old(regs), v)
    {
      hide Add, Sub, Compare, SetNZ;
      match op {
        case Ora => var r := FitOr(regs.a, v); LoadInto(PutA, r);
        case AndA => var r := FitAnd(regs.a, v); LoadInto(PutA, r);
        case Eor => var r := FitXor(regs.a, v); LoadInto(PutA, r);
        case Adc => DoAdd(v);
        case Sbc => DoSub(v);
        case Lda => LoadInto(PutA, v);
        case Ldx => LoadInto(PutX, v);
        case Ldy => LoadInto(PutY, v);
        case Cmp => DoCompare(regs.a, v);
        case Cpx => DoCompare(regs.x, v);
        case Cpy => DoCompare(regs.y, v);
        case BitTest =>
          regs := regs.(p := regs.p.(n := Negative(v), v := v / 64 % 2 == 1));
          regs := regs.(p := regs.p.(z := FitAnd(v, regs.a) == 0));
      }
    }

    method DoInner(op: InnerOp)
      modifies this`regs
      ensures regs == PerformInner(op, old(regs))
    {
      hide Modify, SetNZ;
      match op {
        case Clc => regs := regs.(p := regs.p.(c := false));
        case Sec => regs := regs.(p := regs.p.(c := true));
        case Cli => regs := regs.(p := regs.p.(i := false));
        case Sei => regs := regs.(p := regs.p.(i := true));
        case Clv => regs := regs.(p := regs.p.(v := false));
        case Cld => regs := regs.(p := regs.p.(d := false));
        case Sed => regs := regs.(p := regs.p.(d := true));
        case Nop =>
        case Tax => LoadInto(PutX, regs.a);
        case Tay => LoadInto(PutY, regs.a);
        case Txa => LoadInto(PutA, regs.x);
        case Tya => LoadInto(PutA, regs.y);
        case Tsx => LoadInto(PutX, regs.sp);
        case Txs => regs := regs.(sp := regs.x);
        case Inx => LoadInto(PutX, (regs.x + 1) % 256);
        case Iny => LoadInto(PutY, (regs.y + 1) % 256);
        case Dex => LoadInto(PutX, (regs.x - 1) % 256);
        case Dey => LoadInto(PutY, (regs.y - 1) % 256);
        case OnA(m) => var r := DoModify(m, regs.a); regs := regs.(a := r);
      }
    }

    // -------------------------------------------------------------- the handlers

    method IncPc() returns (pc: word)
      modifies this`regs
      ensures pc == old(regs.pc) && regs == old(regs).(pc := Add16(pc, 1))
    {
      pc := regs.pc;
      regs := regs.(pc := Add16(pc, 1));
    }

    method Fetch(bus: Bus)
      modifies bus`pins
      ensures CoreOn(bus) == Fetched(old(CoreOn(bus)))
    {
      bus.SetAddress(regs.pc);
      bus.SetSync(true);
    }

    /** A cycle's address, with the data of a store if this is the cycle that stores. */
    method PutAt(bus: Bus, address: word, put: Put)
      modifies bus`pins
      ensures CoreOn(bus) == Placed(old(CoreOn(bus)), address, put)
    {
      bus.SetAddress(address);
      if !put.Nothing? {
        bus.SetData(PutValue(put, regs));
        bus.SetRead(false);
      }
    }

    method PushByte(bus: Bus, v: byte)
      modifies this`regs, bus`pins
      ensures CoreOn(bus) == Pushed(old(CoreOn(bus)), v)
    {
      bus.SetAddress(0x100 + regs.sp);
      regs := regs.(sp := (regs.sp - 1) % 256);
      bus.SetData(v);
      bus.SetRead(false);
    }

    method PopAddress(bus: Bus)
      modifies this`regs, bus`pins
      ensures CoreOn(bus) == Popped(old(CoreOn(bus)))
    {
      regs := regs.(sp := (regs.sp + 1) % 256);
      bus.SetAddress(0x100 + regs.sp);
    }

    predicate IsZeroPage(s: Step) {
      s.PeekNext? || s.FetchOperand? || s.FetchLow? || s.ZeroPage? || s.ZeroPageKeep? || s.ZeroPageIndexed? ||
      s.PointerX? || s.PointerXHigh? || s.PointerYHigh?
    }

    method HandleZeroPage(s: Step, bus: Bus)
      requires IsZeroPage(s)
      modifies this`regs, this`temp, bus`pins
      ensures CoreOn(bus) == Do(s, old(CoreOn(bus)))
    {
      var data := bus.pins.data;
      if s.PeekNext? {
        bus.SetAddress(regs.pc);
      } else if s.FetchOperand? {
        var pc := IncPc();
        bus.SetAddress(pc);
      } else if s.FetchLow? {
        var pc := IncPc();
        bus.SetAddress(pc);
        temp := data;
      } else if s.ZeroPage? {
        PutAt(bus, data, s.put);
      } else if s.ZeroPageKeep? {
        temp := data;
        bus.SetAddress(data);
      } else if s.ZeroPageIndexed? {
        PutAt(bus, LowByte(temp + IndexOf(s.i, regs)), s.put);
      } else if s.PointerX? {
        temp := LowByte(temp + regs.x);
        bus.SetAddress(temp);
      } else if s.PointerXHigh? {
        bus.SetAddress(LowByte(temp + 1));
        temp := data;
      } else {
        bus.SetAddress(LowByte(LowByte(temp) + 1));
        temp := data;
      }
    }

    predicate IsAbsolute(s: Step) {
      s.AbsoluteAt? || s.AbsoluteIndexed? || s.AddIndex? || s.PointerAt?
    }

    method HandleAbsolute(s: Step, bus: Bus)
      requires IsAbsolute(s)
      modifies this`regs, this`temp, bus`pins
      ensures CoreOn(bus) == Do(s, old(CoreOn(bus)))
    {
      hide Join, InPage;
      var data := bus.pins.data;
      if s.AbsoluteAt? {
        PutAt(bus, data * 256 + LowByte(temp), s.put);
      } else if s.AbsoluteIndexed? {
        temp := Join(data, temp);
        bus.SetAddress(InPage(temp, LowByte(LowByte(temp) + IndexOf(s.i, regs))));
      } else if s.AddIndex? {
        PutAt(bus, Add16(temp, IndexOf(s.i, regs)), s.put);
      } else {
        PutAt(bus, Join(data, temp), s.put);
      }
    }

    predicate IsJump(s: Step) {
      s.IndirectLow? || s.IndirectHigh? || s.JumpTo? || s.ReturnTo?
    }

    method HandleJump(s: Step, bus: Bus)
      requires IsJump(s)
      modifies this`regs, this`temp, bus`pins
      ensures CoreOn(bus) == Do(s, old(CoreOn(bus)))
    {
      hide Do;
      if s.IndirectLow? || s.IndirectHigh? {
        HandlePointer(s, bus);
      } else {
        HandleTarget(s, bus);
      }
    }

    method HandlePointer(s: Step, bus: Bus)
      requires s.IndirectLow? || s.IndirectHigh?
      modifies this`temp, bus`pins
      ensures CoreOn(bus) == Do(s, old(CoreOn(bus)))
    {
      hide Join, InPage;
      var data := bus.pins.data;
      if s.IndirectLow? {
        temp := Join(data, temp);
        bus.SetAddress(temp);
      } else {
        bus.SetAddress(InPage(temp, LowByte(LowByte(temp) + 1)));
        temp := data;
      }
    }

    method HandleTarget(s: Step, bus: Bus)
      requires IsJump(s) && !s.IndirectLow? && !s.IndirectHigh?
      modifies this`regs, bus`pins
      ensures CoreOn(bus) == Do(s, old(CoreOn(bus)))
    {
      regs := regs.(pc := bus.pins.data * 256 + LowByte(temp));
      if s.JumpTo? {
        Fetch(bus);
      } else {
        var pc := IncPc();
        bus.SetAddress(pc);
      }
    }

    predicate IsOperation(s: Step) {
      s.Operate? || s.OperateInner? || s.WriteBack? || s.WriteModified? || s.FetchNext?
    }

    method HandleOperation(s: Step, bus: Bus)
      requires IsOperation(s)
      modifies this`regs, this`temp, bus`pins
      ensures CoreOn(bus) == Do(s, old(CoreOn(bus)))
    {
      hide Perform, PerformInner, Modify;
      if s.Operate? {
        DoOperate(s.op, bus.pins.data);
        Fetch(bus);
      } else if s.OperateInner? {
        DoInner(s.inner);
        Fetch(bus);
      } else if s.WriteBack? {
        temp := bus.pins.data;
        bus.SetRead(false);
      } else if s.WriteModified? {
        var value := DoModify(s.m, LowByte(temp));
        if s.m.Inc? {
          temp := Add16(LowByte(temp), 1);
        } else if s.m.Dec? {
          temp := Add16(LowByte(temp), -1);
        }
        bus.SetData(value);
        bus.SetRead(false);
      } else {
        Fetch(bus);
      }
    }

    method HandleBranch(s: Step, bus: Bus)
      requires s.BranchTest? || s.BranchNear? || s.BranchFar?
      modifies this`regs, this`temp, bus`pins
      ensures CoreOn(bus) == Do(s, old(CoreOn(bus)))
    {
      hide InPage, Page, Offset, Holds;
      if s.BranchTest? {
        bus.SetAddress(regs.pc);
        temp := Add16(regs.pc, Offset(bus.pins.data));
        if Holds(s.flag, regs.p) != s.sense {
          Fetch(bus);
        }
      } else if s.BranchNear? {
        bus.SetAddress(InPage(regs.pc, LowByte(temp)));
        if Page(temp) == Page(regs.pc) {
          regs := regs.(pc := temp);
          Fetch(bus);
        }
      } else {
        regs := regs.(pc := temp);
        Fetch(bus);
      }
    }

    predicate IsPush(s: Step) {
      s.PushA? || s.PushP? || s.PushPcHigh? || s.PushPcLow?
    }

    method HandlePush(s: Step, bus: Bus)
      requires IsPush(s)
      modifies this`regs, bus`pins
      ensures CoreOn(bus) == Do(s, old(CoreOn(bus)))
    {
      hide Pack;
      if s.PushA? {
        PushByte(bus, regs.a);
      } else if s.PushP? {
        PushByte(bus, Pack(regs.p.(x := true)));
      } else if s.PushPcHigh? {
        PushByte(bus, regs.pc / 256);
      } else {
        PushByte(bus, LowByte(regs.pc));
      }
    }

    predicate IsPull(s: Step) {
      s.StackUp? || s.StackUpKeep? || s.StackUpFlags?
    }

    method HandlePull(s: Step, bus: Bus)
      requires IsPull(s)
      modifies this`regs, this`temp, bus`pins
      ensures CoreOn(bus) == Do(s, old(CoreOn(bus)))
    {
      hide Pulled;
      var data := bus.pins.data;
      if s.StackUp? {
        PopAddress(bus);
      } else if s.StackUpKeep? {
        PopAddress(bus);
        temp := data;
      } else {
        PopAddress(bus);
        regs := regs.(p := Pulled(data));
      }
    }

    predicate IsPeek(s: Step) {
      s.StackPeek? || s.StackPeekKeep? || s.PullFlags?
    }

    method HandlePeek(s: Step, bus: Bus)
      requires IsPeek(s)
      modifies this`regs, this`temp, bus`pins
      ensures CoreOn(bus) == Do(s, old(CoreOn(bus)))
    {
      hide Pulled;
      var data := bus.pins.data;
      if s.StackPeek? {
        bus.SetAddress(0x100 + regs.sp);
      } else if s.StackPeekKeep? {
        bus.SetAddress(0x100 + regs.sp);
        temp := data;
      } else {
        regs := regs.(p := Pulled(data));
        Fetch(bus);
      }
    }

    method HandleBreak(s: Step, bus: Bus)
      requires s.BreakHigh? || s.BreakFlags? || s.BreakVectorLow? || s.BreakVectorHigh?
      modifies this`regs, this`temp, this`servicing, bus`pins
      ensures CoreOn(bus) == Do(s, old(CoreOn(bus)))
    {
      hide Do;
      if s.BreakHigh? || s.BreakFlags? {
        HandleBreakPush(s, bus);
      } else {
        HandleBreakVector(s, bus);
      }
    }

    method HandleBreakPush(s: Step, bus: Bus)
      requires s.BreakHigh? || s.BreakFlags?
      modifies this`regs, this`temp, bus`pins
      ensures CoreOn(bus) == Do(s, old(CoreOn(bus)))
    {
      hide Pack;
      if s.BreakHigh? {
        if !servicing {
          var _ := IncPc();
        }
        PushByte(bus, regs.pc / 256);
      } else {
        PushByte(bus, Pack(regs.p.(x := true)));
        temp := 0xfffe;
      }
    }

    method HandleBreakVector(s: Step, bus: Bus)
      requires s.BreakVectorLow? || s.BreakVectorHigh?
      modifies this`regs, this`temp, this`servicing, bus`pins
      ensures CoreOn(bus) == Do(s, old(CoreOn(bus)))
    {
      hide Pack;
      if s.BreakVectorLow? {
        bus.SetAddress(temp);
        temp := Add16(temp, 1);
        regs := regs.(p := regs.p.(i := true, b := true));
        servicing := false;
      } else {
        bus.SetAddress(temp);
        temp := bus.pins.data;
      }
    }

    method Handle(s: Step, bus: Bus)
      modifies this`regs, this`temp, this`servicing, bus`pins
      ensures CoreOn(bus) == Do(s, old(CoreOn(bus)))
    {
      hide Do;
      if IsZeroPage(s) {
        HandleZeroPage(s, bus);
      } else if IsAbsolute(s) {
        HandleAbsolute(s, bus);
      } else if IsJump(s) {
        HandleJump(s, bus);
      } else if IsOperation(s) {
        HandleOperation(s, bus);
      } else if IsPush(s) {
        HandlePush(s, bus);
      } else if IsPull(s) {
        HandlePull(s, bus);
      } else if IsPeek(s) {
        HandlePeek(s, bus);
      } else if s.BranchTest? || s.BranchNear? || s.BranchFar? {
        HandleBranch(s, bus);
      } else {
        HandleBreak(s, bus);
      }
    }

    // -------------------------------------------------------------- the tick

    /** The reset line low, or the sequence that follows it: whether the tick is over. */
    method MaybeHandleReset(bus: Bus) returns (over: bool)
      modifies this`regs, this`temp, this`resetting, this`resetCycle, bus`pins
      ensures over == (!bus.reset || old(resetting))
      ensures Now(bus) == if !bus.reset then old(Now(bus)).(resetting := true, resetCycle := 0)
                          else if old(resetting) then ResetTick(old(Now(bus))) else old(Now(bus))
    {
      hide ResetCore;
      if !bus.reset {
        resetting, resetCycle := true, 0;
        return true;
      }
      if !resetting { return false; }
      resetCycle := Inc8(resetCycle);
      DoResetCycle(bus);
      if resetCycle == 7 {
        resetting, resetCycle := false, 0;
      }
      return true;
    }

    method DoResetCycle(bus: Bus)
      modifies this`regs, this`temp, bus`pins
      ensures CoreOn(bus) == ResetCore(old(CoreOn(bus)), resetCycle)
    {
      hide Join;
      if resetCycle == 1 {
        regs := regs.(sp := 0);
      } else if resetCycle == 2 {
        bus.SetAddress(Add16(0x100, regs.sp));
      } else if resetCycle == 3 {
        bus.SetAddress(Add16(0x100 + regs.sp, -1));
      } else if resetCycle == 4 {
        bus.SetAddress(Add16(0x100 + regs.sp, -2));
      } else if resetCycle == 5 {
        regs := regs.(sp := 0xfd);
        bus.SetAddress(0xfffc);
      } else if resetCycle == 6 {
        temp := bus.pins.data;
        bus.SetAddress(0xfffd);
      } else if resetCycle == 7 {
        regs := regs.(pc := Join(bus.pins.data, temp));
        bus.SetAddress(regs.pc);
        bus.SetSync(true);
      }
      bus.SetRead(true);
    }

    method MaybeHandleSync(bus: Bus)
      modifies this`regs, this`servicing, this`opcode, this`cycle, bus`pins
      ensures Now(bus) == Polled(old(Now(bus)), irq)
    {
      if bus.pins.sync {
        if irq && !regs.p.i {
          servicing := true;
          regs := regs.(p := regs.p.(b := false));
          opcode, cycle := 0, 0;
          bus.SetSync(false);
          return;
        }
        opcode, cycle := bus.pins.data, 0;
        bus.SetSync(false);
        var _ := IncPc();
      }
    }

    /** The handler that the instruction register selects; without one the source throws. */
    method DoCycle(bus: Bus) returns (found: bool)
      requires bus.pins.rw
      modifies this`regs, this`temp, this`servicing, this`cycle, bus`pins
      ensures found == Drop(Handlers(opcode), old(cycle)).Then?
      ensures found ==>
                var s := Drop(Handlers(opcode), old(cycle)).step;
                CoreOn(bus) == Do(s, old(CoreOn(bus))) &&
                cycle == old(cycle) + if Skips(s, old(CoreOn(bus))) then 2 else 1
    {
      hide Do, Skips, Drop, Handlers;
      var steps := Drop(Handlers(opcode), cycle);
      if steps.End? { return false; }
      cycle := cycle + 1;
      if Skips(steps.step, CoreOn(bus)) {
        cycle := cycle + 1;
      }
      Handle(steps.step, bus);
      return true;
    }

    method Tick(bus: Bus) returns (alive: bool)
      modifies this`regs, this`temp, this`servicing, this`opcode, this`cycle, this`resetting, this`resetCycle, bus`pins
      ensures var next := CpuTicks.Tick(old(Now(bus)), bus.reset, irq);
              alive == next.Some? && (alive ==> Now(bus) == next.value)
    {
      hide Drop, Handlers, Do, Polled, ResetTick;
      var over := MaybeHandleReset(bus);
      if over { return true; }
      MaybeHandleSync(bus);
      ghost var p := Now(bus);
      bus.SetRead(true);
      alive := DoCycle(bus);
      SkipsWhatever(p);
    }
  }

  /** The read line does not bear on which handler comes next. */
  lemma SkipsWhatever(p: Cpu)
    ensures forall s :: Skips(s, p.core.(bus := p.core.bus.(rw := true))) == Skips(s, p.core)
  {
  }
}
