// The carrier lock over every run of clock edges and register accesses: the ACIA sees a carrier exactly while at
// least a hundred carrier bits have been counted in a row, unless the counter overflows.

module CarrierLock {
  import opened Bits
  import opened SerialUlaSpec
  import Chip = AciaSpec
  import AciaRuns

  datatype Act = Edge16 | WriteControl(data: byte) | Access(e: AciaRuns.Event) | Insert(deck: Deck)

  /** The accesses that the CPU makes to the ACIA; its modem lines belong to the serial ULA. */
  predicate FromCpu(a: Act) {
    a.Access? ==> a.e.Control? || a.e.StatusRead? || a.e.DataRead? || a.e.DataWrite?
  }

  function Do(c: Chain, a: Act): Chain {
    match a
    case Edge16 => Tick16(c)
    case WriteControl(data) => WriteScr(c, data)
    case Access(e) => c.(acia := AciaRuns.Apply(c.acia, e))
    case Insert(deck) => c.(port := if c.port.Some? then Some(c.port.value.(deck := deck)) else None)
  }

  function DoAll(c: Chain, acts: seq<Act>): Chain {
    if acts == [] then c else Do(DoAll(c, acts[..|acts| - 1]), acts[|acts| - 1])
  }

  predicate InLock(c: Chain) {
    c.acia.pins.carrier <==> CARRIER_LOCK <= c.sula.carrierCount
  }

  lemma AccessKeepsCarrier(s: Chip.State, e: AciaRuns.Event)
    requires !e.CarrierOn? && !e.CarrierOff?
    ensures AciaRuns.Apply(s, e).pins.carrier == s.pins.carrier
  {
  }

  lemma LockStep(s: Chip.State, count: nat, carrier: bool)
    requires (s.pins.carrier <==> CARRIER_LOCK <= count) && count < 0xffff_ffff
    ensures Lock(s, count, carrier).pins.carrier <==> CARRIER_LOCK <= Counted(count, carrier)
  {
  }

  lemma TickRxLocks(c: Chain)
    requires InLock(c) && c.sula.carrierCount < 0xffff_ffff
    ensures InLock(TickRx(c)) && TickRx(c).sula.carrierCount <= c.sula.carrierCount + 1
  {
    hide Lock, Fetches, Clocks, FetchedCarrier, LevelNow;
    LockStep(c.acia, c.sula.carrierCount, FetchedCarrier(c));
    FetchIsClock(c);
    AccessKeepsCarrier(Chip.SetLine(SerialUlaSpec.Locked(c), LevelNow(c)), AciaRuns.RxTick);
  }

  lemma FetchIsClock(c: Chain)
    ensures Fetches(c) ==> Clocks(c)
  {
  }

  lemma TickTxLocks(c: Chain)
    requires InLock(c)
    ensures InLock(TickTx(c)) && TickTx(c).sula.carrierCount == c.sula.carrierCount
  {
    AccessKeepsCarrier(c.acia, AciaRuns.TxTick);
    hide Chip.TxClock, AciaRuns.Apply;
  }

  lemma ScrLocks(c: Chain, data: byte)
    requires InLock(c)
    ensures InLock(WriteScr(c, data)) && WriteScr(c, data).sula.carrierCount <= c.sula.carrierCount
  {
    hide MotorOn, Rs423, Divider, RxDivider;
  }

  /** The act fetches one more carrier bit than the 32-bit counter can count. */
  ghost predicate Overflows(c: Chain, a: Act) {
    && a == Edge16 && TickTx(c).sula.carrierCount == 0xffff_ffff
    && Fetches(TickTx(c)) && FetchedCarrier(TickTx(c))
  }

  /** An act keeps the lock in step with the count if and only if it does not overflow the counter. */
  lemma ActLocksExactly(c: Chain, a: Act)
    requires InLock(c) && FromCpu(a) && c.sula.carrierCount <= 0xffff_ffff
    ensures Do(c, a).sula.carrierCount <= 0xffff_ffff && (InLock(Do(c, a)) <==> !Overflows(c, a))
  {
    hide TickTx, TickRx, WriteScr, AciaRuns.Apply, Fetches, FetchedCarrier;
    if a == Edge16 {
      TickTxLocks(c);
      if c.sula.carrierCount == 0xffff_ffff {
        FullTickLocks(TickTx(c));
      } else {
        TickRxLocks(TickTx(c));
      }
    } else if a.WriteControl? {
      ScrLocks(c, a.data);
    } else if a.Access? {
      AccessKeepsCarrier(c.acia, a.e);
    }
  }

  lemma FullTickLocks(c: Chain)
    requires InLock(c) && c.sula.carrierCount == 0xffff_ffff
    ensures TickRx(c).sula.carrierCount <= 0xffff_ffff
    ensures InLock(TickRx(c)) <==> !(Fetches(c) && FetchedCarrier(c))
  {
    hide Fetches, Clocks, FetchedCarrier, LevelNow;
    if Fetches(c) && FetchedCarrier(c) {
      FullCounterWraps(c);
    } else {
      FetchIsClock(c);
      FullLockStep(c.acia, FetchedCarrier(c));
      AccessKeepsCarrier(Chip.SetLine(SerialUlaSpec.Locked(c), LevelNow(c)), AciaRuns.RxTick);
    }
  }

  lemma FullLockStep(s: Chip.State, carrier: bool)
    requires s.pins.carrier
    ensures !carrier ==> !Lock(s, 0xffff_ffff, carrier).pins.carrier
  {
  }

  /** The carrier is in lock with the count after every act of a run so far. */
  ghost predicate AlwaysInLock(c: Chain, acts: seq<Act>) {
    forall n: nat | n <= |acts| :: InLock(DoAll(c, acts[..n]))
  }

  ghost predicate NeverOverflows(c: Chain, acts: seq<Act>) {
    forall n: nat | n < |acts| :: !Overflows(DoAll(c, acts[..n]), acts[n])
  }

  /**
   * In runs of any length the carrier is present exactly while at least a hundred carrier bits have been counted, if
   * and only if the run never fetches a carrier bit with the 32-bit counter full.
   */
  lemma {:induction false} EveryRunLocks(c: Chain, acts: seq<Act>)
    requires InLock(c) && (forall a | a in acts :: FromCpu(a)) && c.sula.carrierCount <= 0xffff_ffff
    ensures AlwaysInLock(c, acts) <==> NeverOverflows(c, acts)
    ensures AlwaysInLock(c, acts) ==> DoAll(c, acts).sula.carrierCount <= 0xffff_ffff
  {
    hide InLock, Do, FromCpu, Overflows, AlwaysInLock, NeverOverflows;
    if acts == [] {
      NothingDone(c);
    } else {
      var n := |acts| - 1;
      EveryRunLocks(c, acts[..n]);
      OneActMore(c, acts);
      if AlwaysInLock(c, acts[..n]) {
        InLockNow(c, acts[..n]);
        ActLocksExactly(DoAll(c, acts[..n]), acts[n]);
      }
    }
  }

  lemma NothingDone(c: Chain)
    requires InLock(c)
    ensures AlwaysInLock(c, []) && NeverOverflows(c, []) && DoAll(c, []) == c
  {
  }

  lemma InLockNow(c: Chain, acts: seq<Act>)
    requires AlwaysInLock(c, acts)
    ensures InLock(DoAll(c, acts))
  {
    assert acts[..|acts|] == acts;
  }

  lemma OneActMore(c: Chain, acts: seq<Act>)
    requires acts != []
    ensures var n := |acts| - 1;
            && DoAll(c, acts) == Do(DoAll(c, acts[..n]), acts[n])
            && (AlwaysInLock(c, acts) <==> AlwaysInLock(c, acts[..n]) && InLock(DoAll(c, acts)))
            && (NeverOverflows(c, acts) <==> NeverOverflows(c, acts[..n]) && !Overflows(DoAll(c, acts[..n]), acts[n]))
  {
    hide InLock, Do, Overflows, AlwaysInLock, NeverOverflows;
    OneMoreInLock(c, acts);
    OneMoreNoOverflow(c, acts);
  }

  lemma OneMoreInLock(c: Chain, acts: seq<Act>)
    requires acts != []
    ensures AlwaysInLock(c, acts) <==> AlwaysInLock(c, acts[..|acts| - 1]) && InLock(DoAll(c, acts))
  {
    hide InLock, DoAll;
    var n := |acts| - 1;
    assert acts[..|acts|] == acts;
    if AlwaysInLock(c, acts) {
      forall k: nat | k <= n ensures InLock(DoAll(c, acts[..n][..k])) {
        assert acts[..n][..k] == acts[..k];
      }
    }
    if AlwaysInLock(c, acts[..n]) && InLock(DoAll(c, acts)) {
      forall k: nat | k <= |acts| ensures InLock(DoAll(c, acts[..k])) {
        if k <= n {
          assert acts[..n][..k] == acts[..k];
        }
      }
    }
  }

  lemma OneMoreNoOverflow(c: Chain, acts: seq<Act>)
    requires acts != []
    ensures var n := |acts| - 1;
            NeverOverflows(c, acts) <==> NeverOverflows(c, acts[..n]) && !Overflows(DoAll(c, acts[..n]), acts[n])
  {
    hide Overflows, DoAll;
    var n := |acts| - 1;
    if NeverOverflows(c, acts) {
      forall k: nat | k < n ensures !Overflows(DoAll(c, acts[..n][..k]), acts[..n][k]) {
        assert acts[..n][..k] == acts[..k];
      }
    }
    if NeverOverflows(c, acts[..n]) && !Overflows(DoAll(c, acts[..n]), acts[n]) {
      forall k: nat | k < |acts| ensures !Overflows(DoAll(c, acts[..k]), acts[k]) {
        if k < n {
          assert acts[..n][..k] == acts[..k] && acts[..n][k] == acts[k];
        }
      }
    }
  }

  /** Once the counter is full, the next carrier bit empties it with the carrier still there. */
  lemma FullCounterWraps(c: Chain)
    requires InLock(c) && c.sula.carrierCount == 0xffff_ffff && Fetches(c) && FetchedCarrier(c)
    ensures !InLock(TickRx(c)) && TickRx(c).sula.carrierCount == 0 && TickRx(c).acia.pins.carrier
  {
    hide Fetches, Clocks, FetchedCarrier, LevelNow;
    FetchIsClock(c);
    AccessKeepsCarrier(Chip.SetLine(c.acia, LevelNow(c)), AciaRuns.RxTick);
  }

  lemma ActConsistent(c: Chain, a: Act)
    requires AciaRuns.Consistent(c.acia)
    ensures AciaRuns.Consistent(Do(c, a).acia)
  {
    hide AciaRuns.Consistent, AciaRuns.Apply, Fetches, Clocks, FetchedCarrier, LevelNow, Rs423, MotorOn;
    match a
    case Edge16 =>
      ClockConsistent(c.acia);
      var t := TickTx(c);
      LockConsistent(t);
      LineConsistent(SerialUlaSpec.Locked(t), LevelNow(t));
    case WriteControl(data) => ScrConsistent(c, data);
    case Access(e) => AciaRuns.StepKeepsConsistent(c.acia, e);
    case Insert(_) =>
  }

  lemma ClockConsistent(s: Chip.State)
    requires AciaRuns.Consistent(s)
    ensures AciaRuns.Consistent(Chip.TxClock(s)) && AciaRuns.Consistent(Chip.RxClock(s))
  {
    AciaRuns.StepKeepsConsistent(s, AciaRuns.TxTick);
    AciaRuns.StepKeepsConsistent(s, AciaRuns.RxTick);
    hide AciaRuns.Consistent, Chip.TxClock, Chip.RxClock;
  }

  lemma LineConsistent(s: Chip.State, level: bool)
    requires AciaRuns.Consistent(s)
    ensures AciaRuns.Consistent(Chip.RxClock(Chip.SetLine(s, level)))
  {
    AciaRuns.StepKeepsConsistent(s, AciaRuns.Line(level));
    ClockConsistent(Chip.SetLine(s, level));
  }

  lemma LockConsistent(c: Chain)
    requires AciaRuns.Consistent(c.acia)
    ensures AciaRuns.Consistent(SerialUlaSpec.Locked(c))
  {
    hide AciaRuns.Consistent, Chip.ApplyCarrier, Chip.DropCarrier, Fetches, FetchedCarrier, Inc32;
    AciaRuns.StepKeepsConsistent(c.acia, AciaRuns.CarrierOn);
    AciaRuns.StepKeepsConsistent(c.acia, AciaRuns.CarrierOff);
  }

  lemma ScrConsistent(c: Chain, data: byte)
    requires AciaRuns.Consistent(c.acia)
    ensures AciaRuns.Consistent(WriteScr(c, data).acia)
  {
    var cts := if Rs423(data) then Chip.RaiseCts(c.acia) else Chip.ClearCts(c.acia);
    AciaRuns.StepKeepsConsistent(c.acia, AciaRuns.CtsHigh);
    AciaRuns.StepKeepsConsistent(c.acia, AciaRuns.CtsLow);
    assert AciaRuns.Consistent(cts);
    AciaRuns.StepKeepsConsistent(cts, AciaRuns.CarrierOff);
    hide AciaRuns.Consistent, Chip.RaiseCts, Chip.ClearCts, Chip.DropCarrier;
  }

  lemma {:induction false} EveryRunConsistent(c: Chain, acts: seq<Act>)
    requires AciaRuns.Consistent(c.acia)
    ensures AciaRuns.Consistent(DoAll(c, acts).acia)
  {
    hide AciaRuns.Consistent, Do;
    if acts != [] {
      EveryRunConsistent(c, acts[..|acts| - 1]);
      ActConsistent(DoAll(c, acts[..|acts| - 1]), acts[|acts| - 1]);
    }
  }

  /** As long as the counter does not overflow, the receiver is idle without a hundred carrier bits behind it. */
  lemma UnlockedReceiverIsIdle(c: Chain, acts: seq<Act>)
    requires AciaRuns.Consistent(c.acia) && InLock(c) && (forall a | a in acts :: FromCpu(a))
    requires c.sula.carrierCount <= 0xffff_ffff && NeverOverflows(c, acts)
    ensures DoAll(c, acts).sula.carrierCount < CARRIER_LOCK ==> DoAll(c, acts).acia.rx.phase.RxIdle?
  {
    hide DoAll, FromCpu, NeverOverflows, AlwaysInLock;
    EveryRunLocks(c, acts);
    InLockNow(c, acts);
    EveryRunConsistent(c, acts);
  }
}
