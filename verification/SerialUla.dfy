// The serial ULA and the cassette port as the objects of the board, proved to do what SerialUlaSpec says.

module SerialUlaChip {
  import opened Bits
  import opened TapeStreams
  import opened SerialUlaSpec
  import Spec = AciaSpec
  import opened AciaChip

  /** The stream that has been put into the cassette port. */
  datatype TapeSource = Empty | Uef(uef: UefTapeStream) | Raw(raw: RawBytesTapeStream)

  class CassettePort {
    var motorOn: bool
    var stream: TapeSource
    ghost var view: Port
    ghost var Repr: set<object>

    ghost predicate Valid()
      reads this, Repr
      ensures Valid() ==> this in Repr
    {
      && this in Repr
      && view.motorOn == motorOn
      && match stream
         case Empty => view.deck == NoTape
         case Uef(u) => u in Repr && u.Valid() && view.deck == UefDeck(Flat(u.segments), u.Index(), u.lastCarrier)
         case Raw(r) => r in Repr && r.Valid() && view.deck == RawDeck(Frames8N1(r.data), r.Index(), r.Recording())
    }

    constructor ()
      ensures Valid() && fresh(Repr) && view == Port(false, NoTape)
    {
      motorOn, stream := false, Empty;
      view, Repr := Port(false, NoTape), {this};
    }

    method SetStream(source: TapeSource)
      requires Valid()
      requires source.Uef? ==> source.uef.Valid()
      requires source.Raw? ==> source.raw.Valid()
      modifies this
      ensures Valid() && stream == source && view.motorOn == old(view).motorOn
    {
      stream := source;
      match source
      case Empty =>
        Repr, view := {this}, Port(motorOn, NoTape);
      case Uef(u) =>
        Repr, view := {this, u}, Port(motorOn, UefDeck(Flat(u.segments), u.Index(), u.lastCarrier));
      case Raw(r) =>
        Repr, view := {this, r}, Port(motorOn, RawDeck(Frames8N1(r.data), r.Index(), r.Recording()));
    }

    method RxData() returns (bit: bool)
      requires Valid()
      modifies Repr
      ensures Valid() && Repr == old(Repr)
      ensures bit == PortBit(old(view)) && view == PortNext(old(view))
    {
      if !motorOn || stream.Empty? { return true; }
      match stream
      case Uef(u) =>
        ghost var deck := UefDeck(Flat(u.segments), u.Index(), u.lastCarrier);
        bit := u.NextBit();
        assert DeckNext(deck) == UefDeck(Flat(u.segments), u.Index(), u.lastCarrier);
        view := view.(deck := DeckNext(deck));
      case Raw(r) =>
        bit := r.NextBit();
        view := PortNext(view);
    }

    method HasCarrier() returns (carrier: bool)
      requires Valid()
      ensures carrier == PortCarrier(view)
    {
      if !motorOn || stream.Empty? { return false; }
      match stream
      case Uef(u) =>
        carrier := u.lastCarrier;
      case Raw(r) =>
        FramesLength(r.data);
        carrier := !r.EndOfTape();
    }

    method TxBit(bit: bool)
      requires Valid()
      modifies Repr
      ensures Valid() && Repr == old(Repr) && view == PortRecord(old(view), bit)
    {
      if !motorOn || !stream.Raw? { return; }
      stream.raw.WriteBit(bit);
      view := PortRecord(view, bit);
    }

    method SetMotor(on: bool)
      requires Valid()
      modifies this`motorOn, this`view
      ensures Valid() && view == old(view).(motorOn := on)
    {
      motorOn := on;
      view := view.(motorOn := on);
    }
  }

  class SerialUla {
    const acia: Acia
    var port: CassettePort?
    var serialControlRegister: byte
    var txClockCounter: nat
    var txClockDivider: nat
    var rxClockCounter: nat
    var rxClockDivider: nat
    var rxTapeCounter: nat
    var currentRxBit: bool
    var carrierBitCount: nat

    ghost predicate Valid()
      reads this, port, if port == null then {} else port.Repr
    {
      port != null ==> port.Valid() && this !in port.Repr && acia !in port.Repr
    }

    ghost function Registers(): Sula
      reads this
    {
      Sula(serialControlRegister, txClockCounter, txClockDivider, rxClockCounter, rxClockDivider,
           rxTapeCounter, currentRxBit, carrierBitCount)
    }

    ghost function Outside(): Option<Port>
      reads this, port
    {
      if port == null then None else Some(port.view)
    }

    ghost function Now(): Chain
      reads this, acia, port
    {
      Chain(Registers(), acia.Now(), Outside())
    }

    /** The control register and the dividers are what memory holds until the first SCR write. */
    constructor (acia: Acia)
      ensures this.acia == acia && port == null
      ensures rxTapeCounter == 0 && currentRxBit && carrierBitCount == 0
    {
      this.acia, port := acia, null;
      serialControlRegister := *;
      txClockCounter, txClockDivider, rxClockCounter, rxClockDivider := *, *, *, *;
      rxTapeCounter, currentRxBit, carrierBitCount := 0, true, 0;
    }

    method WriteScr(data: byte)
      requires Valid()
      modifies this, acia, if port == null then {} else port.Repr
      ensures Valid() && port == old(port) && Now() == SerialUlaSpec.WriteScr(old(Now()), data)
    {
      hide Spec.ClearCts, Spec.RaiseCts, Spec.DropCarrier, Divider, Rs423, MotorOn, RxDivider;
      var changed := MotorOn(serialControlRegister) != MotorOn(data);
      SetDividers(data);
      assert acia.Now() == old(acia.Now()) && (port != null ==> port.view == old(port.view));
      SelectSource(Rs423(data));
      assert port != null ==> port.view == old(port.view);
      if port != null && changed {
        MoveMotor(MotorOn(data), !Rs423(data));
      }
    }

    /** The register, and both clocks reloaded. */
    method SetDividers(data: byte)
      modifies this`serialControlRegister, this`txClockDivider, this`txClockCounter
      modifies this`rxClockDivider, this`rxClockCounter
      ensures Registers() == old(Registers()).(scr := data, txDivider := Divider(data), txCounter := 13 * Divider(data),
                rxDivider := Divider(data / 8), rxCounter := 13 * RxDivider(data, Divider(data / 8)))
    {
      hide Divider, RxDivider;
      serialControlRegister := data;
      txClockDivider := Divider(data);
      txClockCounter := 13 * txClockDivider;
      rxClockDivider := Divider(data / 8);
      rxClockCounter := 13 * RxDivider(data, rxClockDivider);
    }

    /** Motor off means no tape movement and so no carrier; motor on waits for the carrier lock. */
    method MoveMotor(on: bool, cassette: bool)
      requires Valid() && port != null
      modifies this`carrierBitCount, acia, port
      ensures Valid() && port == old(port) && port.view == old(port.view).(motorOn := on)
      ensures carrierBitCount == if cassette && !on then 0 else old(carrierBitCount)
      ensures acia.Now() == if cassette && !on then Spec.DropCarrier(old(acia.Now())) else old(acia.Now())
    {
      port.SetMotor(on);
      assert acia.Now() == old(acia.Now());
      if cassette && !on {
        carrierBitCount := 0;
        acia.DropCarrier();
      }
    }

    method SelectSource(rs423: bool)
      modifies acia
      ensures acia.Now() == if rs423 then Spec.RaiseCts(old(acia.Now())) else Spec.ClearCts(old(acia.Now()))
    {
      if !rs423 {
        acia.ClearCts();
      } else {
        acia.RaiseCts();
      }
    }

    method MaybeTxClockTick()
      requires Valid()
      modifies this`txClockCounter, acia, if port == null then {} else port.Repr
      ensures Valid() && port == old(port) && (port != null ==> port.Repr == old(port.Repr))
      ensures Now() == TickTx(old(Now()))
    {
      hide Spec.TxClock, PortRecord;
      txClockCounter := Spec.Dec32(txClockCounter);
      if txClockCounter == 0 {
        txClockCounter := 13 * txClockDivider;
        acia.TxClock();
        assert port != null ==> port.view == old(port.view);
        if port != null && !Rs423(serialControlRegister) {
          port.TxBit(acia.tx.out);
        }
      } else {
        assert acia.Now() == old(acia.Now());
        assert port != null ==> port.view == old(port.view);
      }
    }

    method MaybeRxClockTick()
      requires Valid()
      modifies this, acia, if port == null then {} else port.Repr
      ensures Valid() && port == old(port) && Now() == TickRx(old(Now()))
    {
      hide Spec.RxClock, Lock, PortNext, PortBit, Counted, RxDivider, Rs423, Spec.Dec32;
      var due := CountDown();
      assert acia.Now() == old(acia.Now()) && (port != null ==> port.view == old(port.view));
      if due && !Rs423(serialControlRegister) && port != null {
        rxTapeCounter := Inc32(rxTapeCounter);
        assert acia.Now() == old(acia.Now()) && port.view == old(port.view);
        ClockReceiver();
      }
    }

    /** The receiver's divider, reloaded when it has run out. */
    method CountDown() returns (due: bool)
      modifies this`rxClockCounter
      ensures due == RxDue(old(Registers()))
      ensures rxClockCounter
           == if due then 13 * RxDivider(serialControlRegister, rxClockDivider) else Spec.Dec32(old(rxClockCounter))
    {
      hide RxDivider;
      rxClockCounter := Spec.Dec32(rxClockCounter);
      due := rxClockCounter == 0;
      if due {
        rxClockCounter := 13 * RxDivider(serialControlRegister, rxClockDivider);
      }
    }

    /** A receiver clock that reaches the ACIA: perhaps a new bit from the tape, then the clock itself. */
    method ClockReceiver()
      requires Valid() && port != null
      modifies this`rxTapeCounter, this`currentRxBit, this`carrierBitCount, acia, port.Repr
      ensures Valid() && port == old(port)
      ensures var fetches, was := old(rxTapeCounter) >= old(acia.cfg.format.divisor), old(port.view);
              var carrier := PortCarrier(PortNext(was));
              && rxTapeCounter == (if fetches then 0 else old(rxTapeCounter))
              && currentRxBit == (if fetches then PortBit(was) else old(currentRxBit))
              && carrierBitCount == (if fetches then Counted(old(carrierBitCount), carrier) else old(carrierBitCount))
              && acia.Now() == Spec.RxClock(Spec.SetLine(
                   if fetches then Lock(old(acia.Now()), old(carrierBitCount), carrier) else old(acia.Now()),
                   currentRxBit))
              && port.view == if fetches then PortNext(was) else was
    {
      if rxTapeCounter >= acia.cfg.format.divisor {
        rxTapeCounter := 0;
        FetchBit();
      }
      acia.SetRxData(currentRxBit);
      acia.RxClock();
    }

    method FetchBit()
      requires Valid() && port != null
      modifies this`currentRxBit, this`carrierBitCount, acia, port.Repr
      ensures Valid() && port == old(port) && port.Repr == old(port.Repr)
      ensures currentRxBit == PortBit(old(port.view)) && port.view == PortNext(old(port.view))
      ensures carrierBitCount == Counted(old(carrierBitCount), PortCarrier(port.view))
      ensures acia.Now() == Lock(old(acia.Now()), old(carrierBitCount), PortCarrier(port.view))
    {
      currentRxBit := port.RxData();
      var carrier := port.HasCarrier();
      assert acia.Now() == old(acia.Now());
      UpdateCarrierLock(carrier);
    }

    method UpdateCarrierLock(carrier: bool)
      modifies this`carrierBitCount, acia
      ensures carrierBitCount == Counted(old(carrierBitCount), carrier)
      ensures acia.Now() == Lock(old(acia.Now()), old(carrierBitCount), carrier)
    {
      if carrier {
        carrierBitCount := Inc32(carrierBitCount);
        if carrierBitCount == CARRIER_LOCK { acia.ApplyCarrier(); }
      } else {
        if carrierBitCount >= CARRIER_LOCK { acia.DropCarrier(); }
        carrierBitCount := 0;
      }
    }

    method Tick16MHz()
      requires Valid()
      modifies this, acia, if port == null then {} else port.Repr
      ensures Valid() && port == old(port) && Now() == Tick16(old(Now()))
    {
      MaybeTxClockTick();
      MaybeRxClockTick();
    }
  }
}
