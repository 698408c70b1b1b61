// The ACIA as the object that the bus and the serial ULA drive: methods that update the chip's
// fields in the source's order, each proved to do what AciaSpec says.

module AciaChip {
  import opened Bits
  import opened Receiver
  import opened AciaSpec

  class Acia {
    var cfg: Config
    var tx: Tx
    var rx: Rx
    var inbox: Inbox
    var sr: Status
    var irq: Irq
    var pins: Pins
    var latches: Latches

    function Now(): State
      reads this
    {
      State(cfg, tx, rx, inbox, sr, irq, pins, latches)
    }

    constructor ()
      ensures Now() == POWER_ON
    {
      cfg, tx, rx, inbox := POWER_ON.cfg, POWER_ON.tx, POWER_ON.rx, POWER_ON.inbox;
      sr, irq, pins, latches := POWER_ON.sr, POWER_ON.irq, POWER_ON.pins, POWER_ON.latches;
    }

    method RaiseInterrupt()
      modifies this`irq
      ensures irq == Raise(old(irq))
    {
      if irq.asserted { return; }
      irq := irq.(asserted := true);
      irq := irq.(bit := true);
    }

    method ClearInterrupt()
      modifies this`irq
      ensures irq == Clear(old(irq))
    {
      if !irq.asserted { return; }
      irq := irq.(asserted := false);
      irq := irq.(bit := false);
    }

    method PerformMasterReset()
      modifies this
      ensures Now() == MasterReset(old(Now()))
    {
      ClearInterrupt();
      cfg := cfg.(rts := true);
      sr := sr.(fe := false, ovrn := false, pe := false, rdrf := false);
      if pins.carrier {
        sr := sr.(dcd := true);
      } else {
        sr := sr.(dcd := false);
      }
      latches := latches.(needsReset := false);
      tx := tx.(tdr := 0, full := false, shift := 0, phase := Idle);
      inbox := inbox.(full := false, wasRead := false, rdr := 0);
      rx := rx.(shift := 0, parityCalc := false, shiftCount := 0);
      inbox := inbox.(overrunPending := false, overrun := false);
      latches := latches.(waitStatus := false, waitData := false);
      rx := rx.(phase := RxIdle);
    }

    method ConfigureSerialProtocol(data: byte)
      modifies this`cfg
      ensures var p := SerialProtocol(data);
              cfg == old(cfg).(stopBits := p.stopBits,
                               format := old(cfg).format.(wordLength := p.wordLength, parity := p.parity))
    {
      var bits := data / 4 % 8;
      var wordLength, stopBits := if bits / 4 % 2 == 1 then 8 else 7, if bits / 2 % 2 == 1 then 1 else 2;
      var parity := if bits % 2 == 1 then Odd else Even;
      if bits == 4 {
        parity := NoParity;
      }
      if bits == 5 {
        parity := NoParity;
        stopBits := 1;
      }
      cfg := cfg.(stopBits := stopBits, format := cfg.format.(wordLength := wordLength, parity := parity));
    }

    method EnableTxInterrupts()
      modifies this`cfg, this`irq
      ensures cfg == if latches.needsReset then old(cfg) else old(cfg).(txInt := true)
      ensures irq == RaiseIf(old(irq), !latches.needsReset && sr.tdre)
    {
      if latches.needsReset { return; }
      cfg := cfg.(txInt := true);
      if sr.tdre { RaiseInterrupt(); }
    }

    method EnableRxInterrupts()
      modifies this`cfg, this`irq
      ensures cfg == old(cfg).(rxInt := true)
      ensures irq == RaiseIf(old(irq), inbox.full || sr.ovrn)
    {
      cfg := cfg.(rxInt := true);
      if inbox.full || sr.ovrn { RaiseInterrupt(); }
    }

    method WriteCtl(data: byte)
      modifies this
      ensures Now() == AciaSpec.WriteCtl(old(Now()), data)
    {
      if IsMasterReset(data) {
        PerformMasterReset();
        return;
      }
      if latches.needsReset { return; }
      cfg := cfg.(control := data, format := cfg.format.(divisor := ClockDivisor(data)));
      tx := tx.(ticks := cfg.format.divisor);
      ConfigureSerialProtocol(data);
      SelectTransmit(data / 32 % 4);
      if data >= 0x80 {
        EnableRxInterrupts();
      } else {
        cfg := cfg.(rxInt := false);
      }
    }

    /** Control bits 5 and 6: transmit interrupt, RTS and break. */
    method SelectTransmit(bits: nat)
      requires !latches.needsReset
      modifies this`cfg, this`tx, this`irq
      ensures cfg == old(cfg).(txInt := bits == 1, rts := bits == 2)
      ensures tx == old(tx).(brk := bits == 3, out := bits != 3 && old(tx).out)
      ensures irq == RaiseIf(old(irq), bits == 1 && sr.tdre)
    {
      if bits == 1 {
        EnableTxInterrupts();
      } else {
        cfg := cfg.(txInt := false);
      }
      cfg := cfg.(rts := bits == 2);
      if bits == 3 {
        tx := tx.(brk := true, out := false);
      } else {
        tx := tx.(brk := false);
      }
    }

    method ReadStatus() returns (data: nat)
      modifies this
      ensures data == StatusByte(old(Now())) && Now() == AciaSpec.ReadStatus(old(Now()))
    {
      data := StatusByte(Now());
      if latches.waitStatus {
        latches := latches.(waitStatus := false);
        latches := latches.(waitData := true);
      }
    }

    method ReadRdr() returns (data: nat)
      modifies this
      ensures data == old(inbox.rdr) && Now() == AciaSpec.ReadRdr(old(Now()))
    {
      data := inbox.rdr;
      ClearInterrupt();
      EndDcdSequence();
      TakeCharacter();
      MoveOverrun();
    }

    method EndDcdSequence()
      modifies this`latches, this`sr
      ensures latches == old(latches).(waitData := false)
      ensures sr == old(sr).(dcd := old(sr).dcd && !(old(latches).waitData && pins.carrier))
    {
      if latches.waitData {
        latches := latches.(waitData := false);
        if pins.carrier {
          sr := sr.(dcd := false);
        }
      }
    }

    method TakeCharacter()
      modifies this`inbox, this`sr, this`irq
      ensures var full := old(inbox).full;
              && inbox == old(inbox).(full := false, wasRead := old(inbox).wasRead || full)
              && sr == old(sr).(rdrf := old(sr).rdrf && !full, fe := old(sr).fe && !full, pe := old(sr).pe && !full)
              && irq == RaiseIf(old(irq), full && cfg.txInt && sr.tdre)
    {
      if inbox.full {
        inbox := inbox.(full := false, wasRead := true);
        sr := sr.(rdrf := false, fe := false, pe := false);
        if cfg.txInt && sr.tdre { RaiseInterrupt(); }
      }
    }

    method MoveOverrun()
      modifies this`inbox, this`sr
      ensures inbox == old(inbox).(overrunPending := false, overrun := old(inbox).overrunPending)
      ensures sr == old(sr).(ovrn := old(inbox).overrunPending || (old(sr).ovrn && !old(inbox).overrun))
    {
      if inbox.overrunPending {
        inbox := inbox.(overrunPending := false, overrun := true);
        sr := sr.(ovrn := true);
      } else if inbox.overrun {
        inbox := inbox.(overrun := false);
        sr := sr.(ovrn := false);
      }
    }

    method WriteTdr(data: byte)
      modifies this
      ensures Now() == AciaSpec.WriteTdr(old(Now()), data)
    {
      if !sr.tdre { return; }
      tx := tx.(tdr := data, full := true);
      ClearInterrupt();
      sr := sr.(tdre := false);
      irq := irq.(bit := false);
    }

    method TdrWentEmpty()
      modifies this`sr, this`irq
      ensures sr == old(sr).(tdre := old(sr).tdre || ShowsEmpty(Now()))
      ensures irq == RaiseIf(old(irq), ShowsEmpty(Now()) && cfg.txInt)
    {
      if latches.needsReset { return; }
      if pins.cts { return; }
      sr := sr.(tdre := true);
      if cfg.txInt { RaiseInterrupt(); }
    }

    method MaybeLoadShiftRegister()
      modifies this`tx, this`sr, this`irq
      ensures tx == if old(tx.full) then Load(cfg, old(tx)) else old(tx)
      ensures sr == old(sr).(tdre := old(sr).tdre || (old(tx.full) && ShowsEmpty(Now())))
      ensures irq == RaiseIf(old(irq), old(tx.full) && ShowsEmpty(Now()) && cfg.txInt)
    {
      if !tx.full { return; }
      tx := tx.(shift := tx.tdr, full := false);
      TdrWentEmpty();
      tx := tx.(count := 0, parityBit := if cfg.format.parity == Odd then 1 else 0);
      tx := tx.(phase := SendStart);
    }

    method ShiftOutData()
      modifies this`tx, this`sr, this`irq
      ensures tx == ShiftOut(cfg, old(tx))
      ensures var loads := old(tx.full) && old(tx.phase) == Idle && ShowsEmpty(Now());
              sr == old(sr).(tdre := old(sr).tdre || loads) && irq == RaiseIf(old(irq), loads && cfg.txInt)
    {
      match tx.phase
      case Idle =>
        MaybeLoadShiftRegister();
      case SendStart =>
        tx := tx.(out := false);
        tx := tx.(phase := SendBits);
      case SendBits =>
        var outBit := tx.shift % 2;
        if cfg.format.parity != NoParity && outBit == 1 {
          tx := tx.(parityBit := (tx.parityBit + 1) % 2);
        }
        tx := tx.(out := outBit == 1);
        tx := tx.(shift := tx.shift / 2, count := Inc8(tx.count));
        if tx.count == cfg.format.wordLength {
          if cfg.format.parity != NoParity {
            tx := tx.(phase := SendParity);
          } else {
            tx := tx.(phase := SendStop1);
          }
        }
      case SendParity =>
        tx := tx.(out := tx.parityBit % 2 == 1);
        tx := tx.(phase := SendStop1);
      case SendStop1 =>
        tx := tx.(out := true);
        if cfg.stopBits == 2 {
          tx := tx.(phase := SendStop2);
        } else {
          tx := tx.(phase := Idle);
        }
      case SendStop2 =>
        tx := tx.(out := true);
        tx := tx.(phase := Idle);
    }

    method TxClock()
      modifies this
      ensures Now() == AciaSpec.TxClock(old(Now()))
    {
      hide ShiftOut;
      if pins.cts { return; }
      ShiftIgnoresTicks(cfg, tx, 0);
      tx := tx.(ticks := Dec32(tx.ticks));
      if tx.ticks != 0 { return; }
      if tx.brk {
        tx := tx.(out := false);
      } else {
        ShiftOutData();
      }
      tx := tx.(ticks := cfg.format.divisor);
    }

    method LookForStart()
      requires rx.phase == RxIdle
      modifies this`rx
      ensures rx == RxStep(cfg.format, old(rx), pins.line).rx
    {
      if !pins.line {
        rx := rx.(clocks := 1);
        if cfg.format.divisor == 1 {
          rx := rx.(shift := 0, shiftCount := 0, parityCalc := false, parityError := false);
          rx := rx.(phase := RxData);
        } else {
          rx := rx.(phase := RxStart);
        }
      }
    }

    method ConfirmStart()
      requires rx.phase == RxStart
      modifies this`rx
      ensures rx == RxStep(cfg.format, old(rx), pins.line).rx
    {
      rx := rx.(clocks := Inc8(rx.clocks));
      if pins.line {
        rx := rx.(phase := RxIdle);
      } else if rx.clocks >= cfg.format.divisor / 2 {
        rx := rx.(shift := 0, shiftCount := 0, parityCalc := false, parityError := false);
        rx := rx.(clocks := 0);
        rx := rx.(phase := RxData);
      }
    }

    method RxReceiveDataBit()
      modifies this`rx
      ensures rx == DataBit(cfg.format, old(rx), pins.line)
    {
      rx := rx.(shift := OrBit(rx.shift, pins.line, rx.shiftCount));
      if cfg.format.parity != NoParity {
        rx := rx.(parityCalc := rx.parityCalc != pins.line);
      }
      rx := rx.(shiftCount := Inc8(rx.shiftCount));
      if rx.shiftCount == cfg.format.wordLength {
        rx := rx.(clocks := 0);
        rx := rx.(phase := if cfg.format.parity != NoParity then RxParity else RxStop);
      }
    }

    method RxReceiveParityBit()
      modifies this`rx
      ensures rx == ParityBit(cfg.format, old(rx), pins.line)
    {
      var expected := if cfg.format.parity == Odd then !rx.parityCalc else rx.parityCalc;
      rx := rx.(parityError := pins.line != expected);
      rx := rx.(clocks := 0);
      rx := rx.(phase := RxStop);
    }

    method RxReceiveStopBit()
      modifies this`inbox, this`sr, this`irq, this`rx
      ensures var step := StopBit(cfg.format, old(rx), pins.line);
              rx == step.rx && Now() == Deliver(old(Now()), step.got).(rx := step.rx)
    {
      var framingError := !pins.line;
      var parityError := cfg.format.parity != NoParity && rx.parityError;
      rx := rx.(phase := RxIdle);
      if inbox.full {
        inbox := inbox.(overrunPending := true);
        return;
      }
      inbox := inbox.(rdr := rx.shift, full := true, wasRead := false);
      RaiseReceiveFlags(framingError, parityError);
    }

    method RaiseReceiveFlags(framingError: bool, parityError: bool)
      modifies this`sr, this`irq
      ensures sr == old(sr).(rdrf := true, fe := old(sr).fe || framingError, pe := old(sr).pe || parityError)
      ensures irq == RaiseIf(old(irq), cfg.rxInt)
    {
      if framingError { sr := sr.(fe := true); }
      if parityError { sr := sr.(pe := true); }
      sr := sr.(rdrf := true);
      if cfg.rxInt { RaiseInterrupt(); }
    }

    method RxClock()
      modifies this
      ensures Now() == AciaSpec.RxClock(old(Now()))
    {
      if !pins.carrier { return; }
      match rx.phase
      case RxIdle =>
        LookForStart();
      case RxStart =>
        ConfirmStart();
      case RxData =>
        var due := SampleDue();
        if due { RxReceiveDataBit(); }
      case RxParity =>
        var due := SampleDue();
        if due { RxReceiveParityBit(); }
      case RxStop =>
        var due := SampleDue();
        if due { RxReceiveStopBit(); }
    }

    /** Counts receiver clocks; a bit is sampled at every clock when the divisor is one. */
    method SampleDue() returns (due: bool)
      modifies this`rx
      ensures due <==> cfg.format.divisor == 1 || Inc8(old(rx).clocks) >= cfg.format.divisor
      ensures rx == if cfg.format.divisor == 1 then old(rx)
                    else old(rx).(clocks := if due then 0 else Inc8(old(rx).clocks))
    {
      if cfg.format.divisor == 1 {
        due := true;
      } else {
        rx := rx.(clocks := Inc8(rx.clocks));
        due := rx.clocks >= cfg.format.divisor;
        if due {
          rx := rx.(clocks := 0);
        }
      }
    }

    method SetRxData(bit: bool)
      modifies this`pins
      ensures Now() == SetLine(old(Now()), bit)
    {
      pins := pins.(line := bit);
    }

    method ClearCts()
      modifies this
      ensures Now() == AciaSpec.ClearCts(old(Now()))
    {
      if !pins.cts { return; }
      pins := pins.(cts := false);
      sr := sr.(cts := false);
      if !tx.full { TdrWentEmpty(); }
    }

    method RaiseCts()
      modifies this
      ensures Now() == AciaSpec.RaiseCts(old(Now()))
    {
      if pins.cts { return; }
      pins := pins.(cts := true);
      sr := sr.(cts := true);
      sr := sr.(tdre := false);
    }

    method DropCarrier()
      modifies this
      ensures Now() == AciaSpec.DropCarrier(old(Now()))
    {
      if !pins.carrier { return; }
      pins := pins.(carrier := false);
      sr := sr.(dcd := true);
      sr := sr.(rdrf := false);
      inbox := inbox.(full := false, overrunPending := false, overrun := false);
      rx := rx.(phase := RxIdle, shiftCount := 0, clocks := 0);
      sr := sr.(fe := false, ovrn := false, pe := false);
      latches := latches.(waitStatus := true, waitData := false);
      if cfg.rxInt { RaiseInterrupt(); }
    }

    method ApplyCarrier()
      modifies this
      ensures Now() == AciaSpec.ApplyCarrier(old(Now()))
    {
      if pins.carrier { return; }
      pins := pins.(carrier := true);
      if !latches.waitData && !latches.waitStatus {
        sr := sr.(dcd := true);
      }
    }
  }
}
