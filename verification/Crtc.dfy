// The 6845 CRTC as the object that the bus and the 2MHz character clock drive: methods that update the
// chip's fields in the source's order, each proved to do what CrtcSpec says.

module CrtcChip {
  import opened CrtcSpec

  class Crtc {
    var regs: Regs
    var beam: Beam
    var opening: Opening
    var ending: Ending
    var fetch: Fetch
    var hsync: HPulse
    var vsync: VPulse
    var enable: Enable
    var field: Field
    var scroll: nat
    var address: nat
    var selected: nat

    function Counters(): Scan
      reads this
    {
      Scan(beam, opening, ending, fetch)
    }

    function Now(): State
      reads this
    {
      State(regs, Counters(), hsync, vsync, enable, field, scroll, address)
    }

    constructor ()
      ensures Now() == POWER_ON && InRange(Now()) && selected == 0
    {
      regs, hsync, vsync := POWER_ON.regs, POWER_ON.h, POWER_ON.v;
      beam, opening := POWER_ON.scan.beam, POWER_ON.scan.opening;
      ending, fetch := POWER_ON.scan.ending, POWER_ON.scan.fetch;
      enable, field := POWER_ON.enable, POWER_ON.field;
      scroll, address, selected := POWER_ON.scroll, POWER_ON.address, 0;
    }

    /** What the CRT asks before it draws a character. */
    predicate DisplayEnable()
      reads this`enable
    {
      Displays(enable)
    }

    method DoReset()
      requires InRange(Now())
      modifies this
      ensures Now() == Reset(old(Now())) && InRange(Now()) && selected == 0
    {
      address, selected := 0, 0;
      beam := Beam(0, 0, 0);
      ending := ending.(lines := 0);
      hsync, vsync := hsync.(count := 0), vsync.(count := 0);
      fetch := fetch.(linear := 0);
      opening := Opening(true, true);
      enable := Enable(false, false, false, false, false, true);
    }

    /** A write to the register-select address. */
    method Select(data: nat)
      requires data < 256
      modifies this`selected
      ensures selected == data % 32
    {
      selected := data % 32;
    }

    /** A write to the selected register; R8's skew also enables or blanks the display. */
    method Write(data: nat)
      requires data < 256 && InRange(Now())
      modifies this`regs, this`enable
      ensures regs == WriteRegister(old(regs), selected, data) && InRange(Now())
      ensures enable == if selected == 8 then old(enable).(user := data / 16 % 4 < 3) else old(enable)
    {
      if selected == 3 {
        regs := regs.(vsyncWidth := data / 16);
        if data % 16 != 0 { regs := regs.(hsyncWidth := data % 16); }
      } else if selected == 8 {
        regs := regs.(mode := data % 4);
        if data / 16 % 4 < 3 {
          regs := regs.(skew := data / 16 % 4);
          enable := enable.(user := true);
        } else {
          enable := enable.(user := false);
        }
      } else {
        regs := WriteRegister(regs, selected, data);
      }
    }

    /** The horizontal pulse: its end once its width has passed, and its start. */
    method HandleHsync()
      modifies this`hsync
      ensures hsync == NextH(regs, beam, old(hsync))
    {
      if hsync.on {
        hsync := hsync.(count := (hsync.count + 1) % 16);
        if hsync.count == regs.hsyncWidth {
          hsync := hsync.(on := false);
        }
      }
      if beam.col == regs.hsyncPos && !hsync.on {
        hsync := HPulse(true, 0);
      }
    }

    /** Display enable across the line. */
    method HandleDisplay()
      modifies this`enable
      ensures enable == EnableNow(regs, beam, old(enable))
    {
      if beam.col == regs.skew {
        enable := enable.(skew := true);
      }
      if beam.col == regs.horzDisp + regs.skew || beam.col == regs.horzTotal + regs.skew {
        enable := enable.(hsync := false, skew := false);
      }
    }

    /** The vertical pulse and its interrupt, at whatever character they are due. */
    method HandleVsync()
      modifies this`vsync
      ensures vsync == VsyncNow(regs, beam, old(vsync), field.dummyDue)
    {
      var mayChange := regs.mode % 2 == 0 || !field.dummyDue || beam.col == regs.horzTotal / 2;
      var stops, starts := false, false;
      if vsync.on && vsync.count == regs.vsyncWidth && mayChange {
        stops := true;
        vsync := vsync.(on := false, irq := false);
      }
      if beam.row == regs.vsyncPos && !vsync.on && !vsync.had && mayChange {
        starts := true;
        vsync := vsync.(on := true);
      }
      if starts && !stops {
        vsync := vsync.(had := true, count := 0, irq := true);
      }
    }

    /** The address of the first character of a frame, and of the row after this one. */
    method SettleFetch()
      modifies this`fetch, this`opening
      ensures fetch.linear == (LinearNow(regs, old(Counters())) + 1) % 0x4000
      ensures fetch.lineStart == LineStartNow(regs, old(Counters()))
      ensures fetch.nextStart == NextStartNow(regs, old(Counters()))
      ensures opening == old(opening).(ofFrame := false)
    {
      if opening.ofFrame {
        fetch := fetch.(linear := regs.start, lineStart := regs.start);
        opening := opening.(ofFrame := false);
      }
      if beam.col == regs.horzDisp {
        fetch := fetch.(nextStart := fetch.linear);
      }
      fetch := fetch.(linear := (fetch.linear + 1) % 0x4000);
    }

    /** The vertical adjust counter, one call after the latch of the last line at its second character. */
    method SettleEnding()
      modifies this`ending
      ensures ending == EndingNow(regs, beam, old(ending))
      ensures ending.inAdjust == old(ending.inAdjust)
    {
      if ending.check {
        ending := ending.(check := false);
        if ending.ofMain {
          ending := ending.(ofAdjust := ending.ofAdjust || ending.lines == regs.vertAdjust);
          ending := ending.(lines := (ending.lines + 1) % 32);
        }
      }
      if beam.col == 1 {
        if beam.row == regs.vertTotal && beam.raster == regs.rasters {
          ending := ending.(ofMain := true, lines := 0);
        }
        ending := ending.(check := true);
      }
    }

    method HandleEndOfCharLine()
      modifies this`beam, this`vsync, this`enable
      ensures beam == Beam(old(beam.col), (old(beam.row) + 1) % 128, 0)
      ensures vsync == old(vsync).(had := false)
      ensures enable == old(enable).(scanline := true)
    {
      beam := beam.(row := (beam.row + 1) % 128);
      beam := beam.(raster := 0);
      vsync := vsync.(had := false);
      enable := enable.(scanline := true);
    }

    method HandleEndOfFrame()
      modifies this`beam, this`opening, this`fetch, this`enable, this`field
      ensures beam == old(beam).(row := 0)
      ensures opening == old(opening).(firstLine := true)
      ensures fetch == Fetch(old(fetch.linear), regs.start, regs.start)
      ensures enable == old(enable).(vsync := true)
      ensures field == old(field).(dummyDue := old(field.dummyDue) && vsync.on)
    {
      beam := beam.(row := 0);
      opening := opening.(firstLine := true);
      fetch := fetch.(nextStart := regs.start);
      fetch := fetch.(lineStart := fetch.nextStart);
      enable := enable.(vsync := true);
      if !vsync.on {
        field := field.(dummyDue := false);
      }
    }

    method BumpRaster()
      modifies this`beam, this`enable
      ensures beam == old(beam).(raster := RasterUp(regs, old(beam.raster)))
      ensures enable == old(enable).(scanline := beam.raster / 8 % 2 == 0)
    {
      if regs.mode == 3 {
        beam := beam.(raster := (beam.raster + 2) % 32 / 2 * 2);
      } else {
        beam := beam.(raster := (beam.raster + 1) % 32);
      }
      enable := enable.(scanline := beam.raster / 8 % 2 == 0);
    }

    /** The raster counter's step at the end of a scan line, with the blanking of rasters 8 to 15 and 24 to 31. */
    method StepRaster()
      modifies this`beam, this`fetch, this`opening, this`vsync, this`enable
      ensures var rowEnds := !ending.inAdjust && old(beam.raster) == regs.rasters;
              beam == (if rowEnds then Beam(old(beam.col), (old(beam.row) + 1) % 128, 0)
                       else old(beam).(raster := RasterUp(regs, old(beam.raster)))) &&
              vsync == LineV(old(vsync), rowEnds)
      ensures fetch == old(fetch).(lineStart := if old(beam.raster) == regs.rasters then old(fetch.nextStart)
                                                else old(fetch.lineStart))
      ensures opening == old(opening).(firstLine := false)
      ensures enable == old(enable).(scanline := beam.raster / 8 % 2 == 0)
    {
      hide RasterUp;
      opening := opening.(firstLine := false);
      vsync := vsync.(count := (vsync.count + 1) % 16);
      var r9Hit := beam.raster == regs.rasters;
      if r9Hit {
        fetch := fetch.(lineStart := fetch.nextStart);
      }
      BumpRaster();
      if !ending.inAdjust && r9Hit {
        HandleEndOfCharLine();
      }
    }

    /** The latches at the end of a scan line, and whether the frame ends with it. */
    method StepEnding() returns (over: bool)
      modifies this`ending
      ensures over == EndsFrame(regs, old(ending), field.dummyDue)
      ensures ending == LineEnding(regs, old(ending), field.dummyDue)
    {
      if ending.ofMain && !ending.ofAdjust {
        ending := ending.(inAdjust := true);
      }
      over := ending.ofFrame;
      if ending.ofAdjust {
        ending := ending.(inAdjust := false);
        if regs.mode % 2 == 1 && field.dummyDue {
          ending := ending.(dummy := true, ofFrame := true);
        } else {
          over := true;
        }
      }
      if over {
        ending := ending.(ofMain := false, ofAdjust := false, ofFrame := false, dummy := false);
      }
    }

    /** The end of a scan line. */
    method HandleEndOfScanLine() returns (ghost over: bool)
      modifies this`beam, this`opening, this`ending, this`fetch, this`vsync, this`enable, this`field
      ensures over == EndsFrame(regs, old(ending), old(field.dummyDue))
      ensures var rowEnds := !old(ending.inAdjust) && old(beam.raster) == regs.rasters;
              beam == (if over then Beam(old(beam.col), 0, 0)
                       else if rowEnds then Beam(old(beam.col), (old(beam.row) + 1) % 128, 0)
                       else old(beam).(raster := RasterUp(regs, old(beam.raster)))) &&
              vsync == LineV(old(vsync), over || rowEnds)
      ensures opening == Opening(over || old(opening.ofFrame), over)
      ensures ending == LineEnding(regs, old(ending), old(field.dummyDue))
      ensures fetch == if over then Fetch(regs.start, regs.start, regs.start)
                       else if old(beam.raster) == regs.rasters
                       then Fetch(old(fetch.nextStart), old(fetch.nextStart), old(fetch.nextStart))
                       else Fetch(old(fetch.lineStart), old(fetch.lineStart), old(fetch.nextStart))
      ensures enable == old(enable).(scanline := beam.raster / 8 % 2 == 0, vsync := old(enable.vsync) || over)
      ensures field == old(field).(dummyDue := old(field.dummyDue) && (!over || vsync.on))
    {
      hide LineEnding, EndsFrame, RasterUp;
      StepRaster();
      var endOfFrame := StepEnding();
      over := endOfFrame;
      if endOfFrame {
        opening := opening.(ofFrame := true);
        HandleEndOfCharLine();
        HandleEndOfFrame();
      }
      fetch := fetch.(linear := fetch.lineStart);
    }

    method LatchAddress()
      requires InRange(Now())
      modifies this`address
      ensures address == Output(fetch.linear, beam.raster, scroll)
    {
      var linear, output: int := fetch.linear, 0;
      if linear / 0x2000 % 2 == 1 {
        output := linear % 0x400;
        if linear / 0x800 % 2 == 1 {
          output := output + 0x7c00;
        } else {
          output := output + 0x3c00;
        }
      } else {
        output := beam.raster % 8 + linear * 8;
        if linear / 0x1000 % 2 == 1 {
          output := (output - Subtrahend(scroll)) % 0x10000;
        }
      }
      address := output;
    }

    /** The address and the latches settle, and the column moves on, ending the line where it has met R0. */
    method MoveBeam()
      modifies this`beam, this`opening, this`ending, this`fetch, this`vsync, this`enable, this`field
      ensures Counters() == NextScan(regs, old(Counters()), old(field.dummyDue))
      ensures vsync == if old(EndsLine(regs, beam))
                       then LineV(old(vsync), old(Wraps(regs, Counters(), field.dummyDue) || EndsRow(regs, Counters())))
                       else old(vsync)
      ensures enable == if old(EndsLine(regs, beam)) then LineEnable(old(enable), beam.raster, opening.ofFrame)
                        else old(enable)
      ensures field == old(field).(dummyDue := old(field.dummyDue) && (!opening.ofFrame || vsync.on))
    {
      hide LineEnding, EndsFrame, RasterUp, LinearNow, LineStartNow, NextStartNow, EndingNow;
      SettleFetch();
      SettleEnding();
      if beam.col == regs.horzTotal {
        ghost var over := HandleEndOfScanLine();
        beam := beam.(col := 0);
        enable := enable.(hsync := true);
      } else {
        beam := beam.(col := (beam.col + 1) % 256);
      }
    }

    /** The end of vertical display, which counts the frame, and the choice of a dummy raster. */
    method HandleVertical()
      modifies this`enable, this`field
      ensures var ends := beam.row == regs.vertDisp && !opening.firstLine && old(enable.vsync);
              enable == old(enable).(vsync := old(enable.vsync) && !ends) &&
              field.count == (if ends then (old(field.count) + 1) % 256 else old(field.count))
      ensures field.dummyDue == if beam.row == regs.vertDisp || beam.row == regs.vsyncPos then field.count % 2 == 1
                                else old(field.dummyDue)
    {
      var r6Hit := beam.row == regs.vertDisp;
      if r6Hit && !opening.firstLine && enable.vsync {
        enable := enable.(vsync := false);
        field := field.(count := (field.count + 1) % 256);
      }
      if r6Hit || beam.row == regs.vsyncPos {
        field := field.(dummyDue := field.count % 2 == 1);
      }
    }

    method GenerateNextAddress()
      requires InRange(Now())
      modifies this
      ensures Now() == Generate(old(Now())) && InRange(Now()) && selected == old(selected)
    {
      hide VsyncNow, NextScan, Output, EnableNow, NextH, Wraps, EndsRow, LineEnable, Stored;
      ghost var s := Now();
      StaysInRange(s);
      HandleHsync();
      HandleDisplay();
      HandleVsync();
      MoveBeam();
      HandleVertical();
      LatchAddress();
    }
  }
}
