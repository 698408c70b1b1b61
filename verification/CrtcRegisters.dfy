// What the CRTC's registers hold after any run of writes: which bits of the last write to each.

module CrtcRegisters {
  import opened CrtcSpec

  datatype Write = Write(register: nat, data: nat)

  ghost predicate Bytes(writes: seq<Write>) {
    forall i | 0 <= i < |writes| :: writes[i].data < 256
  }

  function Written(g: Regs, writes: seq<Write>): Regs
    requires Bytes(writes)
  {
    if writes == [] then g
    else WriteRegister(Written(g, writes[..|writes| - 1]), writes[|writes| - 1].register, writes[|writes| - 1].data)
  }

  /** The last byte written to a register, or zero. */
  function Last(writes: seq<Write>, register: nat): nat {
    if writes == [] then 0
    else if writes[|writes| - 1].register == register then writes[|writes| - 1].data
    else Last(writes[..|writes| - 1], register)
  }

  /** The last low half of R3 that was not zero. */
  function LastWidth(writes: seq<Write>): nat {
    if writes == [] then 0
    else
      var w := writes[|writes| - 1];
      if w.register == 3 && w.data % 16 != 0 then w.data % 16 else LastWidth(writes[..|writes| - 1])
  }

  /** The last skew written to R8, where three stands for a blank display and leaves the skew. */
  function LastSkew(writes: seq<Write>): nat {
    if writes == [] then 0
    else
      var w := writes[|writes| - 1];
      if w.register == 8 && w.data / 16 % 4 != 3 then w.data / 16 % 4 else LastSkew(writes[..|writes| - 1])
  }

  /** What the registers are to hold. */
  ghost predicate Hold(g: Regs, writes: seq<Write>) {
    && g.horzTotal == Last(writes, 0) && g.horzDisp == Last(writes, 1) && g.hsyncPos == Last(writes, 2)
    && g.hsyncWidth == LastWidth(writes) && g.vsyncWidth == Last(writes, 3) / 16
    && g.vertTotal == Last(writes, 4) % 128 && g.vertAdjust == Last(writes, 5) % 32
    && g.vertDisp == Last(writes, 6) % 128 && g.vsyncPos == Last(writes, 7) % 128
    && g.mode == Last(writes, 8) % 4 && g.skew == LastSkew(writes) && g.rasters == Last(writes, 9) % 32
    && g.start == Last(writes, 12) % 64 * 256 + Last(writes, 13)
  }

  lemma {:induction false} LastIsByte(writes: seq<Write>, register: nat)
    requires Bytes(writes)
    ensures Last(writes, register) < 256
  {
    if writes != [] {
      LastIsByte(writes[..|writes| - 1], register);
    }
  }

  /** From power-on, every register holds its bits of the last byte written to it, and R12 and R13 one address. */
  lemma {:induction false} RegistersHold(writes: seq<Write>)
    requires Bytes(writes)
    ensures Hold(Written(POWER_ON.regs, writes), writes)
  {
    if writes != [] {
      var before, w := writes[..|writes| - 1], writes[|writes| - 1];
      RegistersHold(before);
      LastIsByte(before, 12);
      LastIsByte(before, 13);
      hide Last, LastWidth, LastSkew, Bytes;
      LastMoves(writes);
      OneWrite(Written(POWER_ON.regs, before), before, w);
      SameHold(Written(POWER_ON.regs, writes), writes, before, w);
    }
  }

  function Now(before: seq<Write>, w: Write, register: nat): nat {
    if w.register == register then w.data else Last(before, register)
  }

  lemma LastMoves(writes: seq<Write>)
    requires writes != []
    ensures var before, w := writes[..|writes| - 1], writes[|writes| - 1];
            && (forall register: nat :: Last(writes, register) == Now(before, w, register))
            && LastWidth(writes) == (if w.register == 3 && w.data % 16 != 0 then w.data % 16 else LastWidth(before))
            && LastSkew(writes)
               == if w.register == 8 && w.data / 16 % 4 != 3 then w.data / 16 % 4 else LastSkew(before)
  {
  }

  /** The same of one more write, in terms of those before it. */
  ghost predicate HoldNow(g: Regs, before: seq<Write>, w: Write) {
    && g.horzTotal == Now(before, w, 0) && g.horzDisp == Now(before, w, 1) && g.hsyncPos == Now(before, w, 2)
    && g.hsyncWidth == (if w.register == 3 && w.data % 16 != 0 then w.data % 16 else LastWidth(before))
    && g.vsyncWidth == Now(before, w, 3) / 16
    && g.vertTotal == Now(before, w, 4) % 128 && g.vertAdjust == Now(before, w, 5) % 32
    && g.vertDisp == Now(before, w, 6) % 128 && g.vsyncPos == Now(before, w, 7) % 128
    && g.mode == Now(before, w, 8) % 4 && g.rasters == Now(before, w, 9) % 32
    && g.skew == (if w.register == 8 && w.data / 16 % 4 != 3 then w.data / 16 % 4 else LastSkew(before))
    && g.start == Now(before, w, 12) % 64 * 256 + Now(before, w, 13)
  }

  lemma OneWrite(g: Regs, before: seq<Write>, w: Write)
    requires Hold(g, before) && w.data < 256 && Last(before, 13) < 256
    ensures HoldNow(WriteRegister(g, w.register, w.data), before, w)
  {
    hide Last, LastWidth, LastSkew;
    StartParts(Last(before, 12) % 64, Last(before, 13));
  }

  lemma StartParts(high: nat, low: nat)
    requires high < 64 && low < 256
    ensures (high * 256 + low) % 256 == low && (high * 256 + low) / 256 % 64 == high
  {
  }

  lemma SameHold(g: Regs, writes: seq<Write>, before: seq<Write>, w: Write)
    requires writes != [] && before == writes[..|writes| - 1] && w == writes[|writes| - 1]
    requires HoldNow(g, before, w)
    ensures Hold(g, writes)
  {
    LastMoves(writes);
    hide Last, LastWidth, LastSkew;
  }
}
