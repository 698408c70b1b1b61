// The board as objects: the clock that divides itself and stretches the processor's line, the board that ticks
// the clock, the processor and what answers it, and the engine that steps the board by one instruction.

module ClockChip {
  import opened Clocks

  class Clock {
    var ticks: nat
    var now: Lines
    var prev: Lines
    var left: nat
    var sequence: seq<bool>

    function Now(): State
      reads this
    {
      State(ticks, now, prev, left, sequence)
    }

    constructor ()
      ensures Now() == POWER_ON && Sound(Now())
    {
      ticks, left, sequence := 0, 0, [];
      now := Lines(false, false, false, false, false, false);
      prev := Lines(true, true, true, true, true, true);
    }

    method Stretch()
      modifies this`left, this`sequence
      ensures Now() == BeginStretch(old(Now()))
    {
      if (now.e2 && now.c1) || (!now.e2 && !now.c1) {
        sequence, left := IN_PHASE, 3;
      } else {
        sequence, left := OUT_OF_PHASE, 5;
      }
    }

    method DoTick()
      requires WellFormed(Now())
      modifies this
      ensures Now() == Tick(old(Now())) && WellFormed(Now())
    {
      hide IN_PHASE, OUT_OF_PHASE;
      prev := now;
      ticks := (ticks + 1) % 16;
      var shouldFlip := false;
      if ticks % 8 == 0 {
        shouldFlip := true;
        if left > 0 {
          left := left - 1;
          shouldFlip := sequence[left];
        }
      }
      now := Lines(now.c1 != (ticks == 0), now.e2 != shouldFlip, now.c2 != (ticks % 8 == 0),
                   now.c4 != (ticks % 4 == 0), now.c8 != (ticks % 2 == 0), !now.c16);
    }
  }
}

module BeebBoard {
  import opened Bits
  import opened Microcode
  import opened Instructions
  import opened CpuCycles
  import CpuTicks
  import opened CpuChip
  import Clocks
  import opened ClockChip
  import opened Board
  import opened Stepping

  class Beeb {
    const clock: Clock
    const cpu: M6502
    const bus: Bus
    const reply: seq<Access> -> byte
    var memory: Memory
    var log: seq<Access>
    var stopped: bool

    constructor (memory: Memory, reply: seq<Access> -> byte)
      ensures !stopped && this.memory == memory && this.reply == reply && log == []
      ensures fresh(clock) && fresh(cpu) && fresh(bus) && Clocks.Sound(clock.Now())
    {
      clock := new Clock();
      cpu := new M6502();
      bus := new Bus();
      this.memory, this.reply, log, stopped := memory, reply, [], false;
    }

    function Now(): Board.State
      reads this, clock, cpu, bus
    {
      if stopped then Board.Stopped else Board.State(clock.Now(), cpu.Now(bus), memory, log)
    }

    /** The processor's edge: it sees the interrupt line, ticks, and stretches the clock if its address is slow. */
    method TickCpu(irq: bool)
      requires !stopped && bus.reset
      modifies this`stopped, clock`left, clock`sequence, cpu, bus`pins
      ensures Now() == CpuPart(old(Now()), irq)
    {
      hide CpuTicks.Tick, IsSlow;
      cpu.irq := irq;
      var alive := cpu.Tick(bus);
      if !alive {
        stopped := true;
        return;
      }
      if IsSlow(bus.pins.address) {
        clock.Stretch();
      }
    }

    method AccessMemory()
      requires !stopped
      modifies this`memory, bus`pins
      ensures Now() == WithSides(old(Now()), MemoryAccess(Sides(old(Now()))))
    {
      hide Mapped;
      if Mapped(bus.pins.address) {
        if bus.pins.rw {
          bus.SetData(Peek(memory, bus.pins.address));
        } else {
          memory := Poke(memory, bus.pins.address, bus.pins.data);
        }
      }
    }

    /** SHEILA's dispatch: the device that decodes the address hears of the access, and answers a read. */
    method TickDevices()
      requires !stopped
      modifies this`log, bus`pins
      ensures Now() == WithSides(old(Now()), DeviceAccess(Sides(old(Now())), reply))
    {
      hide IsDevice;
      if IsDevice(bus.pins.address) {
        log := log + [Access(bus.pins.address, !bus.pins.rw, bus.pins.data)];
        if bus.pins.rw {
          bus.SetData(reply(log));
        }
      }
    }

    method Accesses()
      requires !stopped
      modifies this`memory, this`log, bus`pins
      ensures Now() == AccessPart(old(Now()), reply)
    {
      hide MemoryAccess, DeviceAccess;
      if Clocks.MemoryEdge(clock.Now()) && clock.now.c2 {
        AccessMemory();
      }
      if Clocks.Falls1MHz(clock.Now()) {
        TickDevices();
      }
    }

    method DoTick(irq: bool)
      requires !stopped && bus.reset && Clocks.WellFormed(clock.Now())
      modifies this`memory, this`log, this`stopped, clock, cpu, bus`pins
      ensures Now() == Board.Tick(old(Now()), reply, irq)
    {
      hide CpuPart, AccessPart, Clocks.Tick;
      clock.DoTick();
      if Clocks.CpuEdge(clock.Now()) {
        TickCpu(irq);
        if stopped { return; }
      }
      Accesses();
    }
  }

  class ExecutionEngine {
    const beeb: Beeb

    constructor (beeb: Beeb)
      ensures this.beeb == beeb
    {
      this.beeb := beeb;
    }

    /** Where the board is and at what tick. */
    function Here(at: nat): Progress
      reads beeb, beeb.clock, beeb.cpu, beeb.bus
    {
      Progress(beeb.Now(), at)
    }

    method TickBoard(line: nat -> bool, from: nat) returns (at: nat)
      requires !beeb.stopped && Ready(Here(from)) && beeb.bus.reset
      modifies beeb`memory, beeb`log, beeb`stopped, beeb.clock, beeb.cpu, beeb.bus`pins
      ensures at == from + 1 && old(Ready(Here(from)) && Here(from).state.State?) && Ready(Here(at))
      ensures Clocks.WellFormed(old(beeb.clock.Now())) && Here(at) == Next(old(Here(from)), beeb.reply, line)
      ensures !beeb.stopped ==>
                old(Inside(beeb.Now())) && Inside(beeb.Now()) &&
                (Budget(beeb.Now()) < old(Budget(beeb.Now())) ||
                 (beeb.bus.pins.sync && !old(beeb.bus.pins.sync)))
    {
      hide Board.Tick, Inside, Budget;
      TickSpends(beeb.Now(), beeb.reply, line(from));
      StillInside(beeb.Now());
      beeb.DoTick(line(from));
      at := from + 1;
    }

    /** The first loop: while the opcode is being fetched. */
    method DrainSync(line: nat -> bool, from: nat) returns (at: nat)
      requires Ready(Here(from)) && beeb.bus.reset
      modifies beeb`memory, beeb`log, beeb`stopped, beeb.clock, beeb.cpu, beeb.bus`pins
      ensures Here(at) == Drain(old(Here(from)), beeb.reply, line)
    {
      hide Board.Tick, Inside, Budget;
      at := from;
      ghost var start := Here(from);
      while !beeb.stopped && beeb.bus.pins.sync
        invariant Ready(Here(at)) && Drain(Here(at), beeb.reply, line) == Drain(start, beeb.reply, line)
        decreases Stepping.TicksLeft(Here(at))
      {
        at := TickBoard(line, at);
      }
    }

    /** The second loop: at least one tick, and on until the next opcode is being fetched. */
    method RunBody(line: nat -> bool, from: nat) returns (at: nat)
      requires !beeb.stopped && Ready(Here(from)) && beeb.bus.reset && !beeb.bus.pins.sync
      modifies beeb`memory, beeb`log, beeb`stopped, beeb.clock, beeb.cpu, beeb.bus`pins
      ensures Here(at) == Body(old(Here(from)), beeb.reply, line)
    {
      hide Board.Tick, Inside, Budget;
      ghost var drained := Here(from);
      at := TickBoard(line, from);
      while !beeb.stopped && !beeb.bus.pins.sync
        invariant Ready(Here(at))
        invariant Body(drained, beeb.reply, line) ==
                  if beeb.stopped || beeb.bus.pins.sync then Here(at) else Body(Here(at), beeb.reply, line)
        decreases if beeb.stopped || beeb.bus.pins.sync then 0 else 1 + Stepping.TicksLeft(Here(at))
      {
        at := TickBoard(line, at);
      }
    }

    /** One instruction, with the interrupt line as it is at each tick: both loops of the source end. */
    method TickOneInstruction(line: nat -> bool, from: nat) returns (at: nat)
      requires Ready(Here(from)) && beeb.bus.reset
      modifies beeb`memory, beeb`log, beeb`stopped, beeb.clock, beeb.cpu, beeb.bus`pins
      ensures Here(at) == StepInstruction(old(Here(from)), beeb.reply, line)
    {
      hide Drain, Body, Inside;
      at := DrainSync(line, from);
      if !beeb.stopped {
        at := RunBody(line, at);
      } else {
        StoppedBody(Here(at), beeb.reply, line);
      }
    }
  }

  lemma StoppedBody(x: Progress, reply: seq<Access> -> byte, line: nat -> bool)
    requires x.state.Stopped?
    ensures Body(x, reply, line) == x
  {
  }

  lemma StillInside(s: Board.State)
    requires Inside(s)
    ensures Clocks.WellFormed(s.clock)
  {
  }
}
