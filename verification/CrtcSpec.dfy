// The 6845 CRTC as a value. One call to generate the next address is described part by part:
// each part says what it becomes in terms of the parts that the call has already settled.

module CrtcSpec {

  /** What R0 to R9, R12 and R13 select. */
  datatype Regs = Regs(horzTotal: nat, horzDisp: nat, hsyncPos: nat, hsyncWidth: nat, vsyncWidth: nat,
                       vertTotal: nat, vertAdjust: nat, vertDisp: nat, vsyncPos: nat,
                       mode: nat, skew: nat, rasters: nat, start: nat)

  /** Where the beam is: character within the line, character row, raster within the row. */
  datatype Beam = Beam(col: nat, row: nat, raster: nat)

  /** Whether the frame is about to start, and whether its first scan line is still being drawn. */
  datatype Opening = Opening(ofFrame: bool, firstLine: bool)

  /** The vertical adjust counter and the latches that end the picture and the frame. */
  datatype Ending = Ending(lines: nat, check: bool, inAdjust: bool, ofMain: bool, ofAdjust: bool, ofFrame: bool,
                           dummy: bool)

  /** The address of this character, of this line's first and of the next row's first. */
  datatype Fetch = Fetch(linear: nat, lineStart: nat, nextStart: nat)

  datatype Scan = Scan(beam: Beam, opening: Opening, ending: Ending, fetch: Fetch)

  datatype HPulse = HPulse(on: bool, count: nat)

  /** The vertical sync pulse, which is also the interrupt to the system VIA. */
  datatype VPulse = VPulse(on: bool, count: nat, had: bool, irq: bool)

  /** The six bits that must all be set for a character to be displayed. */
  datatype Enable = Enable(vsync: bool, hsync: bool, skew: bool, scanline: bool, user: bool, frameSkip: bool)

  /** The frame counter and whether an even frame's dummy raster is due. */
  datatype Field = Field(count: nat, dummyDue: bool)

  datatype State = State(regs: Regs, scan: Scan, h: HPulse, v: VPulse, enable: Enable, field: Field, scroll: nat,
                         address: nat)

  /** The widths that the register writes leave. */
  predicate Stored(g: Regs) {
    g.horzTotal < 256 && g.horzDisp < 256 && g.hsyncPos < 256 && g.hsyncWidth < 16 && g.vsyncWidth < 16 &&
    g.vertTotal < 128 && g.vertAdjust < 32 && g.vertDisp < 128 && g.vsyncPos < 128 &&
    g.mode < 4 && g.skew < 3 && g.rasters < 32 && g.start < 0x4000
  }

  /** The state that the constructor leaves. */
  const POWER_ON := State(
    Regs(0, 0, 0, 0, 0, 0, 0, 0, 0, 0, 0, 0, 0),
    Scan(Beam(0, 0, 0), Opening(false, false), Ending(0, false, false, false, false, false, false), Fetch(0, 0, 0)),
    HPulse(false, 0), VPulse(false, 0, false, false),
    Enable(false, false, false, false, false, true),
    Field(0, false), 0x30, 0)

  /** What a reset clears; the latches and the vertical adjust flag are not among it. */
  function Reset(s: State): State {
    var k := s.scan;
    State(s.regs,
          Scan(Beam(0, 0, 0), Opening(true, true), k.ending.(lines := 0), k.fetch.(linear := 0)),
          s.h.(count := 0), s.v.(count := 0),
          Enable(false, false, false, false, false, true), s.field, s.scroll, 0)
  }

  function WriteRegister(g: Regs, register: nat, data: nat): Regs
    requires data < 256
  {
    if register == 0 then g.(horzTotal := data)
    else if register == 1 then g.(horzDisp := data)
    else if register == 2 then g.(hsyncPos := data)
    else if register == 3 then
      g.(vsyncWidth := data / 16, hsyncWidth := if data % 16 != 0 then data % 16 else g.hsyncWidth)
    else if register == 4 then g.(vertTotal := data % 128)
    else if register == 5 then g.(vertAdjust := data % 32)
    else if register == 6 then g.(vertDisp := data % 128)
    else if register == 7 then g.(vsyncPos := data % 128)
    else if register == 8 then
      g.(mode := data % 4, skew := if data / 16 % 4 < 3 then data / 16 % 4 else g.skew)
    else if register == 9 then g.(rasters := data % 32)
    else if register == 12 then g.(start := g.start % 256 + data % 64 * 256)
    else if register == 13 then g.(start := g.start / 256 % 64 * 256 + data)
    else g
  }

  // ---------------------------------------------------------------- the counters

  predicate EndsLine(g: Regs, m: Beam) {
    m.col == g.horzTotal
  }

  function LinearNow(g: Regs, k: Scan): nat {
    if k.opening.ofFrame then g.start else k.fetch.linear
  }

  function LineStartNow(g: Regs, k: Scan): nat {
    if k.opening.ofFrame then g.start else k.fetch.lineStart
  }

  /** The address that the next character row is to start at, after the check at the last displayed column. */
  function NextStartNow(g: Regs, k: Scan): nat {
    if k.beam.col == g.horzDisp then LinearNow(g, k) else k.fetch.nextStart
  }

  /** The second character of the last scan line of the last row. */
  predicate MeetsEnd(g: Regs, m: Beam) {
    m.col == 1 && m.row == g.vertTotal && m.raster == g.rasters
  }

  /** The latches as they stand when the column is to move on. */
  function EndingNow(g: Regs, m: Beam, e: Ending): Ending {
    Ending(if MeetsEnd(g, m) then 0 else if e.check && e.ofMain then (e.lines + 1) % 32 else e.lines,
           m.col == 1,
           e.inAdjust,
           e.ofMain || MeetsEnd(g, m),
           e.ofAdjust || (e.check && e.ofMain && e.lines == g.vertAdjust),
           e.ofFrame,
           e.dummy)
  }

  /** The dummy raster that follows vertical adjust in an even interlaced frame. */
  predicate EntersDummy(g: Regs, e: Ending, dummyDue: bool) {
    e.ofAdjust && g.mode % 2 == 1 && dummyDue
  }

  predicate EndsFrame(g: Regs, e: Ending, dummyDue: bool) {
    e.ofFrame || (e.ofAdjust && !EntersDummy(g, e, dummyDue))
  }

  predicate EndsRow(g: Regs, k: Scan) {
    !k.ending.inAdjust && k.beam.raster == g.rasters
  }

  /** Whether this call moves on from the frame. */
  predicate Wraps(g: Regs, k: Scan, dummyDue: bool) {
    EndsLine(g, k.beam) && EndsFrame(g, EndingNow(g, k.beam, k.ending), dummyDue)
  }

  function RasterUp(g: Regs, raster: nat): nat {
    if g.mode == 3 then (raster + 2) % 32 / 2 * 2 else (raster + 1) % 32
  }

  function NextBeam(g: Regs, k: Scan, over: bool): Beam {
    if !EndsLine(g, k.beam) then Beam((k.beam.col + 1) % 256, k.beam.row, k.beam.raster)
    else if over then Beam(0, 0, 0)
    else if EndsRow(g, k) then Beam(0, (k.beam.row + 1) % 128, 0)
    else Beam(0, k.beam.row, RasterUp(g, k.beam.raster))
  }

  function NextOpening(g: Regs, k: Scan, over: bool): Opening {
    Opening(over, over || (k.opening.firstLine && !EndsLine(g, k.beam)))
  }

  /** The latches after the end of a line that finds them as e. */
  function LineEnding(g: Regs, e: Ending, dummyDue: bool): Ending {
    var over := EndsFrame(g, e, dummyDue);
    Ending(e.lines, e.check,
           !e.ofAdjust && (e.inAdjust || e.ofMain),
           !over && e.ofMain,
           !over && e.ofAdjust,
           !over && EntersDummy(g, e, dummyDue),
           !over && (e.dummy || EntersDummy(g, e, dummyDue)))
  }

  function NextEnding(g: Regs, k: Scan, dummyDue: bool): Ending {
    var now := EndingNow(g, k.beam, k.ending);
    if EndsLine(g, k.beam) then LineEnding(g, now, dummyDue) else now
  }

  function NextFetch(g: Regs, k: Scan, over: bool): Fetch {
    if !EndsLine(g, k.beam) then Fetch((LinearNow(g, k) + 1) % 0x4000, LineStartNow(g, k), NextStartNow(g, k))
    else if over then Fetch(g.start, g.start, g.start)
    else if k.beam.raster == g.rasters then Fetch(NextStartNow(g, k), NextStartNow(g, k), NextStartNow(g, k))
    else Fetch(LineStartNow(g, k), LineStartNow(g, k), NextStartNow(g, k))
  }

  function NextScan(g: Regs, k: Scan, dummyDue: bool): Scan {
    var over := Wraps(g, k, dummyDue);
    Scan(NextBeam(g, k, over), NextOpening(g, k, over), NextEnding(g, k, dummyDue), NextFetch(g, k, over))
  }

  // ---------------------------------------------------------------- sync, display enable and field

  function NextH(g: Regs, m: Beam, h: HPulse): HPulse {
    var counted := (h.count + 1) % 16;
    var on := h.on && counted != g.hsyncWidth;
    var starts := m.col == g.hsyncPos && !on;
    HPulse(on || starts, if starts then 0 else if h.on then counted else h.count)
  }

  predicate VsyncMayChange(g: Regs, m: Beam, dummyDue: bool) {
    g.mode % 2 == 0 || !dummyDue || m.col == g.horzTotal / 2
  }

  predicate VsyncEnds(g: Regs, m: Beam, v: VPulse, dummyDue: bool) {
    v.on && v.count == g.vsyncWidth && VsyncMayChange(g, m, dummyDue)
  }

  predicate VsyncStarts(g: Regs, m: Beam, v: VPulse, dummyDue: bool) {
    m.row == g.vsyncPos && (!v.on || VsyncEnds(g, m, v, dummyDue)) && !v.had && VsyncMayChange(g, m, dummyDue)
  }

  /** The pulse after its ends have been checked. A pulse that starts as another ends keeps counting. */
  function VsyncNow(g: Regs, m: Beam, v: VPulse, dummyDue: bool): VPulse {
    var ends := VsyncEnds(g, m, v, dummyDue);
    var starts := VsyncStarts(g, m, v, dummyDue);
    var raised := starts && !ends;
    VPulse(starts || (v.on && !ends), if raised then 0 else v.count, v.had || raised, raised || (v.irq && !ends))
  }

  /** What the end of a line, and of a row if it is one, does to the vertical pulse. */
  function LineV(v: VPulse, newRow: bool): VPulse {
    v.(count := (v.count + 1) % 16, had := v.had && !newRow)
  }

  function NextV(g: Regs, k: Scan, v: VPulse, dummyDue: bool): VPulse {
    var now := VsyncNow(g, k.beam, v, dummyDue);
    if EndsLine(g, k.beam) then LineV(now, Wraps(g, k, dummyDue) || EndsRow(g, k)) else now
  }

  /** Display enable across a line, with the blanking at its displayed end. */
  function EnableNow(g: Regs, m: Beam, e: Enable): Enable {
    var blank := m.col == g.horzDisp + g.skew || m.col == g.horzTotal + g.skew;
    e.(hsync := e.hsync && !blank, skew := (e.skew || m.col == g.skew) && !blank)
  }

  /** The display is enabled. */
  predicate Displays(e: Enable) {
    e.vsync && e.hsync && e.skew && e.scanline && e.user && e.frameSkip
  }

  /** Display enable as the end of a line leaves it: rasters 8 to 15 and 24 to 31 are blank. */
  function LineEnable(e: Enable, raster: nat, over: bool): Enable {
    e.(hsync := true, scanline := raster / 8 % 2 == 0, vsync := e.vsync || over)
  }

  function EnableMoved(g: Regs, k: Scan, e: Enable, dummyDue: bool): Enable {
    var k' := NextScan(g, k, dummyDue);
    if EndsLine(g, k.beam) then LineEnable(EnableNow(g, k.beam, e), k'.beam.raster, k'.opening.ofFrame)
    else EnableNow(g, k.beam, e)
  }

  /** Vertical display ends where the row counter, as this call leaves it, meets R6 below the first line. */
  predicate DisplayEnds(g: Regs, k: Scan, e: Enable) {
    k.beam.row == g.vertDisp && !k.opening.firstLine && e.vsync
  }

  function NextEnable(g: Regs, k: Scan, e: Enable, dummyDue: bool): Enable {
    var moved := EnableMoved(g, k, e, dummyDue);
    moved.(vsync := moved.vsync && !DisplayEnds(g, NextScan(g, k, dummyDue), moved))
  }

  /** The frame counter and the dummy raster, given the counters and enables that the call leaves. */
  function FieldAfter(g: Regs, k: Scan, e: Enable, v: VPulse, f: Field): Field {
    var count := if DisplayEnds(g, k, e) then (f.count + 1) % 256 else f.count;
    Field(count,
          if k.beam.row == g.vertDisp || k.beam.row == g.vsyncPos then count % 2 == 1
          else f.dummyDue && (!k.opening.ofFrame || v.on))
  }

  // ---------------------------------------------------------------- the address on the bus

  /** What the two hardware scroll bits make the address wrap by. */
  function Subtrahend(scroll: nat): nat {
    if scroll / 16 == 0 then 0x4000
    else if scroll / 16 == 1 then 0x2000
    else if scroll / 16 == 2 then 0x5000
    else if scroll / 16 == 3 then 0x2800
    else 0
  }

  /** Teletext addresses where bit 13 is set; otherwise eight bytes a character, wrapped where bit 12 is set. */
  function Output(linear: nat, raster: nat, scroll: nat): nat
    requires linear < 0x4000
  {
    if linear / 0x2000 % 2 == 1 then
      (if linear / 0x800 % 2 == 1 then 0x7c00 else 0x3c00) + linear % 0x400
    else if linear / 0x1000 % 2 == 1 then
      (raster % 8 + linear * 8 - Subtrahend(scroll)) % 0x10000
    else
      raster % 8 + linear * 8
  }

  /** The counters that stay in range, so that the address does. */
  predicate InRange(s: State) {
    Stored(s.regs) && FetchInRange(s.scan.fetch)
  }

  predicate FetchInRange(a: Fetch) {
    a.linear < 0x4000 && a.lineStart < 0x4000 && a.nextStart < 0x4000
  }

  lemma StaysInRange(s: State)
    requires InRange(s)
    ensures FetchInRange(NextScan(s.regs, s.scan, s.field.dummyDue).fetch)
  {
  }

  /** One call: the counters, the pulses and the enables move, and the address of the new place is put out. */
  function Generate(s: State): (r: State)
    requires InRange(s)
    ensures InRange(r)
  {
    var g, k, due := s.regs, s.scan, s.field.dummyDue;
    var k' := NextScan(g, k, due);
    StaysInRange(s);
    State(g, k', NextH(g, k.beam, s.h), NextV(g, k, s.v, due), NextEnable(g, k, s.enable, due),
          FieldAfter(g, k', EnableMoved(g, k, s.enable, due), VsyncNow(g, k.beam, s.v, due), s.field),
          s.scroll, Output(k'.fetch.linear, k'.beam.raster, s.scroll))
  }
}
