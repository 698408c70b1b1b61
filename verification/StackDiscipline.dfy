// What the stack gives back: an interrupt's return leaves no trace but three bytes below the stack pointer, and
// nested subroutine calls return in turn as long as they do not wrap round the stack page onto themselves.

module StackDiscipline {
  import opened Bits
  import opened CpuAlu
  import opened Microcode
  import opened Opcodes
  import opened Instructions
  import opened CpuTicks

  /** Page one is there and can be written. */
  predicate HasStack(m: Memory) {
    0x200 <= |m.cells| && 0x200 <= m.ram
  }

  /** The stack pointer after so many pushes, round the stack page. */
  function Down(sp: byte, n: nat): byte {
    (sp - n) % 256
  }

  lemma DownAgain(sp: byte, n: nat, more: nat)
    ensures Down(Down(sp, n), more) == Down(sp, n + more)
  {
  }

  lemma UpFromDown(sp: byte, n: nat, up: nat)
    requires up <= n
    ensures (Down(sp, n) + up) % 256 == Down(sp, n - up)
  {
  }

  lemma DownDiffers(sp: byte, n: nat, k: nat)
    requires n < k < n + 256
    ensures Down(sp, n) != Down(sp, k)
  {
  }

  lemma Pushing(s: Machine, v: byte)
    requires HasStack(s.memory)
    ensures var t := Push(s, v);
            HasStack(t.memory) && t.regs == s.regs.(sp := Down(s.regs.sp, 1)) &&
            Peek(t.memory, StackAt(s.regs.sp)) == v &&
            forall at: word | at != StackAt(s.regs.sp) :: Peek(t.memory, at) == Peek(s.memory, at)
  {
  }

  /** The address of the place that the nth push from here writes, counting from 0. */
  function Place(sp: byte, n: nat): word {
    StackAt(Down(sp, n))
  }

  lemma PushingWord(s: Machine, v: word)
    requires HasStack(s.memory)
    ensures var t := PushWord(s, v);
            HasStack(t.memory) && t.regs == s.regs.(sp := Down(s.regs.sp, 2)) &&
            Peek(t.memory, Place(s.regs.sp, 0)) == v / 256 && Peek(t.memory, Place(s.regs.sp, 1)) == v % 256 &&
            forall at: word | at != Place(s.regs.sp, 0) && at != Place(s.regs.sp, 1) ::
              Peek(t.memory, at) == Peek(s.memory, at)
  {
    hide Push, Peek, HasStack;
    Pushing(s, v / 256);
    Pushing(Push(s, v / 256), v % 256);
    DownAgain(s.regs.sp, 1, 1);
    DownDiffers(s.regs.sp, 0, 1);
  }

  // ---------------------------------------------------------------- interrupts

  /** The three bytes that an interrupt pushes; the rest of memory is as it was. */
  lemma InterruptPushes(s: Machine)
    requires HasStack(s.memory)
    ensures var e, sp := Interrupt(s), s.regs.sp;
            e.regs.sp == Down(sp, 3) && HasStack(e.memory) &&
            Peek(e.memory, Place(sp, 0)) == s.regs.pc / 256 && Peek(e.memory, Place(sp, 1)) == s.regs.pc % 256 &&
            Peek(e.memory, Place(sp, 2)) == Pack(s.regs.p.(b := false, x := true)) &&
            forall at: word | at != Place(sp, 0) && at != Place(sp, 1) && at != Place(sp, 2) ::
              Peek(e.memory, at) == Peek(s.memory, at)
  {
    hide PushWord, Push, Peek, HasStack, Pack;
    var sp := s.regs.sp;
    var quiet := s.(regs := s.regs.(p := s.regs.p.(b := false)));
    PushingWord(quiet, s.regs.pc);
    Pushing(PushWord(quiet, s.regs.pc), Pack(s.regs.p.(b := false, x := true)));
    DownAgain(sp, 2, 1);
    DownDiffers(sp, 0, 2);
    DownDiffers(sp, 1, 2);
  }

  /** A handler is about to return: it has put back the registers, the stack pointer and the interrupt's bytes. */
  predicate Restored(h: Machine, s: Machine) {
    var e, sp := Interrupt(s), s.regs.sp;
    h.regs.a == s.regs.a && h.regs.x == s.regs.x && h.regs.y == s.regs.y && h.regs.sp == e.regs.sp &&
    Peek(h.memory, Place(sp, 0)) == Peek(e.memory, Place(sp, 0)) &&
    Peek(h.memory, Place(sp, 1)) == Peek(e.memory, Place(sp, 1)) &&
    Peek(h.memory, Place(sp, 2)) == Peek(e.memory, Place(sp, 2))
  }

  /**
   * Transparency: whatever a handler does to the rest of memory, once it has restored A, X, Y and the stack, its
   * RTI gives the interrupted program back every register and flag, if and only if B was set and X clear before.
   */
  lemma ReturnIsTransparent(s: Machine, h: Machine)
    requires HasStack(s.memory) && Restored(h, s)
    ensures Execute(Rti, h).memory == h.memory
    ensures Execute(Rti, h).regs == s.regs <==> s.regs.p.b && !s.regs.p.x
  {
    hide Interrupt, Peek, HasStack, Pack, Unpack, Down;
    var sp := s.regs.sp;
    InterruptPushes(s);
    UpFromDown(sp, 3, 1);
    UpFromDown(sp, 3, 2);
    UpFromDown(sp, 3, 3);
    DownNone(sp);
    FlagsSurvive(s.regs.p.(b := false, x := true));
    assert s.regs.pc == s.regs.pc / 256 * 256 + s.regs.pc % 256;
  }

  lemma DownNone(sp: byte)
    ensures Down(sp, 0) == sp
  {
  }

  /** With nothing between them, entry and return change no memory but the three bytes below the stack pointer. */
  lemma EntryAndReturn(s: Machine)
    requires HasStack(s.memory) && s.regs.p.b && !s.regs.p.x
    ensures var r, sp := Execute(Rti, Interrupt(s)), s.regs.sp;
            r.regs == s.regs &&
            forall at: word | at != Place(sp, 0) && at != Place(sp, 1) && at != Place(sp, 2) ::
              Peek(r.memory, at) == Peek(s.memory, at)
  {
    hide Execute, Peek, HasStack, Pack, Down, Place;
    InterruptKeeps(s);
    InterruptPushes(s);
    ReturnIsTransparent(s, Interrupt(s));
  }

  lemma InterruptKeeps(s: Machine)
    ensures var e := Interrupt(s);
            e.regs.a == s.regs.a && e.regs.x == s.regs.x && e.regs.y == s.regs.y && e.regs.p.i
  {
  }

  // ---------------------------------------------------------------- subroutines

  function Calls(s: Machine, n: nat): Machine
    decreases n
  {
    if n == 0 then s else Calls(Execute(Jsr, s), n - 1)
  }

  function Returns(s: Machine, n: nat): Machine
    decreases n
  {
    if n == 0 then s else Returns(Execute(Rts, s), n - 1)
  }

  lemma CallPushes(s: Machine)
    requires HasStack(s.memory)
    ensures var t, sp, back := Execute(Jsr, s), s.regs.sp, Add16(s.regs.pc, 2);
            HasStack(t.memory) && t.regs == s.regs.(sp := Down(sp, 2), pc := t.regs.pc) &&
            Peek(t.memory, Place(sp, 0)) == back / 256 && Peek(t.memory, Place(sp, 1)) == back % 256 &&
            forall at: word | at != Place(sp, 0) && at != Place(sp, 1) :: Peek(t.memory, at) == Peek(s.memory, at)
  {
    hide PushWord, Peek, HasStack, Down;
    PushingWord(s, Add16(s.regs.pc, 2));
  }

  /** n calls go down 2n places and write nowhere else. */
  lemma {:induction false} CallsWriteBelow(s: Machine, n: nat, at: word)
    requires HasStack(s.memory) && forall k | 0 <= k < 2 * n :: at != Place(s.regs.sp, k)
    ensures Calls(s, n).regs == s.regs.(sp := Down(s.regs.sp, 2 * n), pc := Calls(s, n).regs.pc)
    ensures Peek(Calls(s, n).memory, at) == Peek(s.memory, at)
    decreases n
  {
    hide Execute, Peek, HasStack, Down;
    if n == 0 {
      DownNone(s.regs.sp);
    } else {
      var sp := s.regs.sp;
      CallPushes(s);
      DownAgain(sp, 2, 2 * (n - 1));
      forall k | 0 <= k < 2 * (n - 1) ensures at != Place(Down(sp, 2), k) {
        DownAgain(sp, 2, k);
        assert Place(Down(sp, 2), k) == Place(sp, k + 2);
      }
      CallsWriteBelow(Execute(Jsr, s), n - 1, at);
    }
  }

  lemma ReturnPulls(s: Machine, sp: byte)
    requires s.regs.sp == Down(sp, 2)
    ensures var t := Execute(Rts, s);
            t.memory == s.memory &&
            var to := Peek(s.memory, Place(sp, 0)) * 256 + Peek(s.memory, Place(sp, 1));
            t.regs == s.regs.(sp := sp, pc := Add16(to, 1))
  {
    hide Peek, Down;
    UpFromDown(sp, 2, 1);
    UpFromDown(sp, 2, 2);
    DownNone(sp);
  }

  lemma {:induction false} ReturnsMore(s: Machine, n: nat)
    requires 0 < n
    ensures Returns(s, n) == Execute(Rts, Returns(s, n - 1))
    decreases n
  {
    hide Execute;
    if n > 1 {
      ReturnsMore(Execute(Rts, s), n - 1);
    }
  }

  lemma {:induction false} ReturnsKeepMemory(s: Machine, n: nat)
    ensures Returns(s, n).memory == s.memory
    decreases n
  {
    if n > 0 {
      ReturnsKeepMemory(Execute(Rts, s), n - 1);
    }
  }

  /**
   * Nesting: n subroutine calls, each made wherever the one before it has jumped to, and then n returns bring the
   * program counter past the first call with every other register as it was, for up to 128 calls.
   */
  lemma {:induction false} CallsNest(s: Machine, n: nat)
    requires HasStack(s.memory) && 0 < n <= 128
    ensures Returns(Calls(s, n), n).regs == s.regs.(pc := Add16(s.regs.pc, 3))
    decreases n
  {
    hide Execute, Peek, HasStack, Down;
    var t, sp, back := Execute(Jsr, s), s.regs.sp, Add16(s.regs.pc, 2);
    CallPushes(s);
    var inner := Returns(Calls(t, n - 1), n - 1);
    ReturnsMore(Calls(s, n), n);
    ReturnsKeepMemory(Calls(t, n - 1), n - 1);
    StackBytesApart(sp, n);
    CallsWriteBelow(t, n - 1, Place(sp, 0));
    CallsWriteBelow(t, n - 1, Place(sp, 1));
    if n > 1 {
      CallsNest(t, n - 1);
    }
    ReturnPulls(inner, sp);
    ReturnAddress(s.regs.pc);
  }

  lemma ReturnAddress(pc: word)
    ensures var back := Add16(pc, 2); Add16(back / 256 * 256 + back % 256, 1) == Add16(pc, 3)
  {
  }

  lemma StackBytesApart(sp: byte, n: nat)
    requires 0 < n <= 128
    ensures forall k | 0 <= k < 2 * (n - 1) ::
              Place(sp, 0) != Place(Down(sp, 2), k) && Place(sp, 1) != Place(Down(sp, 2), k)
  {
    hide Down;
    forall k | 0 <= k < 2 * (n - 1)
      ensures Place(sp, 0) != Place(Down(sp, 2), k) && Place(sp, 1) != Place(Down(sp, 2), k)
    {
      DownAgain(sp, 2, k);
      DownDiffers(sp, 0, 2 + k);
      DownDiffers(sp, 1, 2 + k);
    }
  }
}
