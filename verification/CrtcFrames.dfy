// The closed form behind the CRTC's nested counters and delayed latches: where the beam is after any
// number of calls, what address it has there, and how many calls a frame takes.

module CrtcFrames {
  import opened CrtcSpec

  /** A place in the frame: in a character row, in the vertical adjust lines, or in the dummy raster. */
  datatype Place = Main(row: nat, raster: nat, col: nat) | Adjust(line: nat, col: nat) | Dummy(col: nat)

  /** Timing registers within the closed form: at least three characters a line, all displayed ones among them. */
  predicate Timed(g: Regs) {
    Stored(g) && 2 <= g.horzTotal && g.horzDisp <= g.horzTotal && g.mode != 3 &&
    (g.mode == 1 ==> 1 <= g.vertDisp <= g.vertTotal)
  }

  predicate Within(g: Regs, p: Place, dummy: bool) {
    p.col <= g.horzTotal &&
    match p
    case Main(r, k, _) => r <= g.vertTotal && k <= g.rasters
    case Adjust(l, _) => l < g.vertAdjust
    case Dummy(_) => dummy
  }

  const ORIGIN := Main(0, 0, 0)

  /** The place where the line begins that follows the picture's last line but for `adjusted` adjust lines. */
  function AfterPicture(g: Regs, adjusted: nat, dummy: bool): Place {
    if adjusted < g.vertAdjust then Adjust(adjusted, 0) else if dummy then Dummy(0) else ORIGIN
  }

  function NextPlace(g: Regs, p: Place, dummy: bool): Place {
    if p.col < g.horzTotal then p.(col := p.col + 1)
    else match p
      case Main(r, k, _) =>
        if k < g.rasters then Main(r, k + 1, 0)
        else if r < g.vertTotal then Main(r + 1, 0, 0)
        else AfterPicture(g, 0, dummy)
      case Adjust(l, _) => AfterPicture(g, l + 1, dummy)
      case Dummy(_) => ORIGIN
  }

  /** The address of the first character of a row, row by row. */
  function RowStart(g: Regs, row: nat): nat {
    if row == 0 then g.start % 0x4000 else (RowStart(g, row - 1) + g.horzDisp) % 0x4000
  }

  lemma WrapsOnce(a: nat, b: nat)
    ensures (a % 0x4000 + b) % 0x4000 == (a + b) % 0x4000
  {
    assert a == a / 0x4000 * 0x4000 + a % 0x4000;
    assert (a % 0x4000 + b + a / 0x4000 * 0x4000) % 0x4000 == (a % 0x4000 + b) % 0x4000;
  }

  lemma {:induction false} RowStartIs(g: Regs, row: nat)
    ensures RowStart(g, row) == (g.start + row * g.horzDisp) % 0x4000
  {
    if row > 0 {
      RowStartIs(g, row - 1);
      assert row * g.horzDisp == (row - 1) * g.horzDisp + g.horzDisp;
      WrapsOnce(g.start + (row - 1) * g.horzDisp, g.horzDisp);
    }
  }

  // ---------------------------------------------------------------- the counters at a place

  predicate Last(g: Regs, p: Place) {
    p.Main? && p.row == g.vertTotal && p.raster == g.rasters
  }

  function BeamAt(g: Regs, p: Place): Beam {
    match p
    case Main(r, k, c) => Beam(c, r, k)
    case Adjust(l, c) => Beam(c, (g.vertTotal + 1) % 128, l)
    case Dummy(c) => Beam(c, (g.vertTotal + 1) % 128, g.vertAdjust)
  }

  predicate EndingAt(g: Regs, e: Ending, p: Place) {
    e.check == (p.col == 2) &&
    match p
    case Main(_, _, c) =>
      !e.inAdjust && !e.ofFrame && !e.dummy &&
      e.ofMain == (Last(g, p) && 2 <= c) &&
      e.ofAdjust == (Last(g, p) && 2 < c && g.vertAdjust == 0) &&
      (Last(g, p) && 2 <= c ==> e.lines == if c == 2 then 0 else 1)
    case Adjust(l, c) =>
      e.inAdjust && !e.ofFrame && !e.dummy && e.ofMain &&
      e.ofAdjust == (2 < c && l + 1 == g.vertAdjust) &&
      e.lines == (if c <= 2 then l + 1 else (l + 2) % 32)
    case Dummy(_) => !e.inAdjust && e.ofFrame && e.dummy && e.ofMain && e.ofAdjust
  }

  predicate FetchAt(g: Regs, k: Scan, p: Place) {
    p.Main? ==>
      LineStartNow(g, k) == RowStart(g, p.row) &&
      LinearNow(g, k) == (RowStart(g, p.row) + p.col) % 0x4000 &&
      (g.horzDisp < p.col ==> k.fetch.nextStart == RowStart(g, p.row + 1))
  }

  predicate Holds(g: Regs, k: Scan, p: Place) {
    k.beam == BeamAt(g, p) && k.opening == Opening(p == ORIGIN, p.Main? && p.row == 0 && p.raster == 0) &&
    EndingAt(g, k.ending, p) && FetchAt(g, k, p)
  }

  /** At the places where the frame's end is decided, the dummy raster is due exactly if `dummy`. */
  predicate Decided(g: Regs, p: Place, due: bool, dummy: bool) {
    (Last(g, p) || p.Adjust?) ==> (g.mode % 2 == 1 && due) == dummy
  }

  lemma BeamMoves(g: Regs, k: Scan, p: Place, due: bool, dummy: bool)
    requires Timed(g) && Within(g, p, dummy) && Decided(g, p, due, dummy)
    requires k.beam == BeamAt(g, p) && EndingAt(g, k.ending, p)
    ensures var over := Wraps(g, k, due);
            over == (NextPlace(g, p, dummy) == ORIGIN) && NextBeam(g, k, over) == BeamAt(g, NextPlace(g, p, dummy))
  {
  }

  lemma EndingMoves(g: Regs, k: Scan, p: Place, due: bool, dummy: bool)
    requires Timed(g) && Within(g, p, dummy) && Decided(g, p, due, dummy)
    requires k.beam == BeamAt(g, p) && EndingAt(g, k.ending, p)
    ensures EndingAt(g, NextEnding(g, k, due), NextPlace(g, p, dummy))
  {
  }

  lemma OpeningMoves(g: Regs, k: Scan, p: Place, dummy: bool)
    requires Timed(g) && Within(g, p, dummy) && k.beam == BeamAt(g, p)
    requires k.opening == Opening(p == ORIGIN, p.Main? && p.row == 0 && p.raster == 0)
    ensures var q := NextPlace(g, p, dummy);
            NextOpening(g, k, q == ORIGIN) == Opening(q == ORIGIN, q.Main? && q.row == 0 && q.raster == 0)
  {
  }

  /** What the fetch addresses of a place in a row become within the line, and at its end. */
  lemma FetchWithinLine(g: Regs, k: Scan, p: Place)
    requires Timed(g) && p.Main? && p.col < g.horzTotal && k.beam == BeamAt(g, p) && FetchAt(g, k, p)
    ensures var f := NextFetch(g, k, false);
            f.lineStart == RowStart(g, p.row) && f.linear == (RowStart(g, p.row) + (p.col + 1)) % 0x4000 &&
            (g.horzDisp <= p.col ==> f.nextStart == RowStart(g, p.row + 1))
  {
    WrapsOnce(RowStart(g, p.row) + p.col, 1);
  }

  lemma FetchAtLineEnd(g: Regs, k: Scan, p: Place)
    requires Timed(g) && p.Main? && p.col == g.horzTotal && k.beam == BeamAt(g, p) && FetchAt(g, k, p)
    ensures var f := NextFetch(g, k, false);
            f.linear == f.lineStart == RowStart(g, if p.raster == g.rasters then p.row + 1 else p.row)
  {
  }

  lemma {:induction false} RowStartInRange(g: Regs, row: nat)
    ensures RowStart(g, row) < 0x4000
  {
  }

  lemma FetchMoves(g: Regs, k: Scan, p: Place, dummy: bool)
    requires Timed(g) && Within(g, p, dummy) && k.beam == BeamAt(g, p) && FetchAt(g, k, p)
    requires k.opening.ofFrame == (p == ORIGIN)
    ensures var q := NextPlace(g, p, dummy);
            var over := q == ORIGIN;
            FetchAt(g, Scan(NextBeam(g, k, over), NextOpening(g, k, over), k.ending, NextFetch(g, k, over)), q)
  {
    hide NextFetch, RowStart;
    var q := NextPlace(g, p, dummy);
    if q == ORIGIN {
      RowStartIs(g, 0);
    } else if q.Main? {
      RowStartInRange(g, q.row);
      if p.col < g.horzTotal { FetchWithinLine(g, k, p); } else { FetchAtLineEnd(g, k, p); }
    }
  }

  /** Every call moves the beam to the next place of the frame. */
  lemma CountersMove(g: Regs, k: Scan, p: Place, due: bool, dummy: bool)
    requires Timed(g) && Within(g, p, dummy) && Decided(g, p, due, dummy) && Holds(g, k, p)
    ensures Holds(g, NextScan(g, k, due), NextPlace(g, p, dummy)) && Within(g, NextPlace(g, p, dummy), dummy)
  {
    hide EndingAt, NextBeam, NextEnding, NextFetch, BeamAt, Wraps, RowStart, NextOpening;
    BeamMoves(g, k, p, due, dummy);
    EndingMoves(g, k, p, due, dummy);
    OpeningMoves(g, k, p, dummy);
    FetchMoves(g, k, p, dummy);
  }

  // ---------------------------------------------------------------- places in the order of the calls

  /** The number of scan lines of so many character rows, row by row. */
  function Lines(g: Regs, rows: nat): nat {
    if rows == 0 then 0 else Lines(g, rows - 1) + (g.rasters + 1)
  }

  lemma {:induction false} LinesIs(g: Regs, rows: nat)
    ensures Lines(g, rows) == rows * (g.rasters + 1)
  {
    if rows > 0 {
      LinesIs(g, rows - 1);
      assert rows * (g.rasters + 1) == (rows - 1) * (g.rasters + 1) + (g.rasters + 1);
    }
  }

  lemma {:induction false} LinesGrow(g: Regs, a: nat, b: nat)
    requires a < b
    ensures Lines(g, a) + g.rasters + 1 <= Lines(g, b)
  {
    if a + 1 < b {
      LinesGrow(g, a, b - 1);
    }
  }

  function LineOf(g: Regs, p: Place): nat {
    match p
    case Main(r, k, _) => Lines(g, r) + k
    case Adjust(l, _) => Lines(g, g.vertTotal + 1) + l
    case Dummy(_) => Lines(g, g.vertTotal + 1) + g.vertAdjust
  }

  function FrameLines(g: Regs, dummy: bool): nat {
    Lines(g, g.vertTotal + 1) + g.vertAdjust + if dummy then 1 else 0
  }

  function Calls(g: Regs, lines: nat, col: nat): nat {
    lines * (g.horzTotal + 1) + col
  }

  function CallsTo(g: Regs, p: Place): nat {
    Calls(g, LineOf(g, p), p.col)
  }

  function FrameCalls(g: Regs, dummy: bool): nat {
    Calls(g, FrameLines(g, dummy), 0)
  }

  lemma LineBreak(g: Regs, line: nat)
    ensures Calls(g, line, g.horzTotal) + 1 == Calls(g, line + 1, 0)
  {
    assert (line + 1) * (g.horzTotal + 1) == line * (g.horzTotal + 1) + (g.horzTotal + 1);
  }

  lemma CallsGrow(g: Regs, a: nat, b: nat, col: nat)
    requires a < b && col <= g.horzTotal
    ensures Calls(g, a, col) < Calls(g, b, 0)
  {
    var d := b - a;
    assert (a + d) * (g.horzTotal + 1) == a * (g.horzTotal + 1) + d * (g.horzTotal + 1);
    assert d * (g.horzTotal + 1) >= 1 * (g.horzTotal + 1);
  }

  lemma LineInFrame(g: Regs, p: Place, dummy: bool)
    requires Within(g, p, dummy)
    ensures LineOf(g, p) < FrameLines(g, dummy)
  {
    if p.Main? {
      LinesGrow(g, p.row, g.vertTotal + 1);
    }
  }

  /** The line after this one is the next place's, or it is the end of the frame. */
  lemma LineAfter(g: Regs, p: Place, dummy: bool)
    requires Within(g, p, dummy) && p.col == g.horzTotal
    ensures var q := NextPlace(g, p, dummy);
            Within(g, q, dummy) && q.col == 0 &&
            LineOf(g, p) + 1 == if q == ORIGIN then FrameLines(g, dummy) else LineOf(g, q)
  {
  }

  /** One call takes the place to the next one in the order of the calls, and the last of them to the origin. */
  lemma PlaceMoves(g: Regs, p: Place, dummy: bool)
    requires Within(g, p, dummy)
    ensures var q := NextPlace(g, p, dummy);
            CallsTo(g, p) < FrameCalls(g, dummy) &&
            if CallsTo(g, p) + 1 == FrameCalls(g, dummy) then q == ORIGIN else CallsTo(g, q) == CallsTo(g, p) + 1
  {
    hide Calls, Lines, FrameLines;
    LineInFrame(g, p, dummy);
    CallsGrow(g, LineOf(g, p), FrameLines(g, dummy), p.col);
    if p.col < g.horzTotal {
      CallsStep(g, LineOf(g, p), p.col);
      if LineOf(g, p) + 1 < FrameLines(g, dummy) {
        CallsGrow(g, LineOf(g, p) + 1, FrameLines(g, dummy), 0);
      }
      CallsGrow(g, LineOf(g, p), FrameLines(g, dummy), p.col + 1);
    } else {
      LineBreak(g, LineOf(g, p));
      LineAfter(g, p, dummy);
      if NextPlace(g, p, dummy) != ORIGIN {
        LineInFrame(g, NextPlace(g, p, dummy), dummy);
        CallsGrow(g, LineOf(g, p) + 1, FrameLines(g, dummy), 0);
      }
    }
  }

  lemma CallsStep(g: Regs, line: nat, col: nat)
    ensures Calls(g, line, col + 1) == Calls(g, line, col) + 1
  {
  }

  /** A call of the frame names one place. */
  lemma PlacesDiffer(g: Regs, p: Place, q: Place, dummy: bool)
    requires Within(g, p, dummy) && Within(g, q, dummy) && CallsTo(g, p) == CallsTo(g, q)
    ensures p == q
  {
    hide Calls;
    if LineOf(g, p) < LineOf(g, q) {
      CallsGrow(g, LineOf(g, p), LineOf(g, q), p.col);
      CallsPastStart(g, LineOf(g, q), q.col);
    } else if LineOf(g, q) < LineOf(g, p) {
      CallsGrow(g, LineOf(g, q), LineOf(g, p), q.col);
      CallsPastStart(g, LineOf(g, p), p.col);
    } else {
      SameColumn(g, LineOf(g, p), p.col, q.col);
      SameLine(g, p, q, dummy);
    }
  }

  lemma CallsPastStart(g: Regs, line: nat, col: nat)
    ensures Calls(g, line, 0) <= Calls(g, line, col)
  {
  }

  lemma SameColumn(g: Regs, line: nat, a: nat, b: nat)
    requires Calls(g, line, a) == Calls(g, line, b)
    ensures a == b
  {
  }

  lemma SameLine(g: Regs, p: Place, q: Place, dummy: bool)
    requires Within(g, p, dummy) && Within(g, q, dummy) && p.col == q.col && LineOf(g, p) == LineOf(g, q)
    ensures p == q
  {
    hide Lines;
    if p.Main? { LinesGrow(g, p.row, g.vertTotal + 1); }
    if q.Main? { LinesGrow(g, q.row, g.vertTotal + 1); }
    if p.Main? && q.Main? {
      if p.row < q.row { LinesGrow(g, p.row, q.row); }
      if q.row < p.row { LinesGrow(g, q.row, p.row); }
    }
  }

  // ---------------------------------------------------------------- the frame counter and the dummy raster

  function CountAfter(count: nat, lit: bool): nat {
    if lit then (count + 1) % 256 else count
  }

  predicate BelowDisplay(g: Regs, p: Place) {
    p.Main? ==> g.vertDisp <= p.row
  }

  /** In interlaced mode: the frame began with this count, its display lit or not, and R6 moves the count on. */
  predicate FieldAt(g: Regs, e: Enable, f: Field, p: Place, count: nat, lit: bool) {
    g.mode == 1 ==>
      if BelowDisplay(g, p) then !e.vsync && f == Field(CountAfter(count, lit), CountAfter(count, lit) % 2 == 1)
      else e.vsync == lit && f.count == count
  }

  /** Whether a frame that began so ends with a dummy raster. */
  predicate DummyDue(g: Regs, count: nat, lit: bool) {
    g.mode == 1 && CountAfter(count, lit) % 2 == 1
  }

  ghost predicate At(s: State, g: Regs, p: Place, count: nat, lit: bool) {
    s.regs == g && InRange(s) && Within(g, p, DummyDue(g, count, lit)) &&
    Holds(g, s.scan, p) && FieldAt(g, s.enable, s.field, p, count, lit)
  }

  /** The beam of the next place meets R6 where the display ends, and is past it from there to the frame's end. */
  lemma FieldMoves(g: Regs, k: Scan, e: Enable, v: VPulse, f: Field, p: Place, count: nat, lit: bool)
    requires Timed(g) && g.mode == 1 && FieldAt(g, e, f, p, count, lit) && Within(g, p, DummyDue(g, count, lit))
    requires var q := NextPlace(g, p, DummyDue(g, count, lit));
             q != ORIGIN && k.beam == BeamAt(g, q) &&
             k.opening == Opening(false, q.Main? && q.row == 0 && q.raster == 0)
    ensures var e' := e.(vsync := e.vsync && !DisplayEnds(g, k, e));
            FieldAt(g, e', FieldAfter(g, k, e, v, f), NextPlace(g, p, DummyDue(g, count, lit)), count, lit)
  {
  }

  /** Over the frame's end the counters begin again with the display lit. */
  lemma FieldRestarts(g: Regs, k: Scan, e: Enable, v: VPulse, f: Field, count: nat)
    requires Timed(g) && g.mode == 1 && f.count == count && e.vsync
    requires k.beam == Beam(0, 0, 0) && k.opening == Opening(true, true)
    ensures var e' := e.(vsync := e.vsync && !DisplayEnds(g, k, e));
            FieldAt(g, e', FieldAfter(g, k, e, v, f), ORIGIN, count, true)
  {
  }

  lemma EnableVsync(g: Regs, k: Scan, e: Enable, due: bool)
    ensures EnableMoved(g, k, e, due).vsync == (e.vsync || (EndsLine(g, k.beam) && Wraps(g, k, due)))
  {
  }

  lemma NextEnableVsync(g: Regs, k: Scan, e: Enable, due: bool)
    ensures var m := EnableMoved(g, k, e, due);
            NextEnable(g, k, e, due).vsync == (m.vsync && !DisplayEnds(g, NextScan(g, k, due), m))
  {
  }

  /** The same place one call on; the origin of the next frame counts from the count that this one reached. */
  lemma CallMoves(s: State, g: Regs, p: Place, count: nat, lit: bool)
    requires Timed(g) && At(s, g, p, count, lit)
    ensures var q := NextPlace(g, p, DummyDue(g, count, lit));
            if q == ORIGIN then At(Generate(s), g, q, CountAfter(count, lit), true)
            else At(Generate(s), g, q, count, lit)
  {
    hide EndingAt, FetchAt, FetchInRange, NextScan, BeamAt, Stored, EnableMoved, DisplayEnds, FieldAfter, VsyncNow,
         FieldAt, CountAfter, NextPlace, NextEnable, Output, NextV, NextH;
    var k, e, f, dummy := s.scan, s.enable, s.field, DummyDue(g, count, lit);
    var q := NextPlace(g, p, dummy);
    EndIsDecided(g, e, f, p, count, lit);
    CountersMove(g, k, p, f.dummyDue, dummy);
    FieldCallMoves(g, k, e, NextScan(g, k, f.dummyDue), VsyncNow(g, k.beam, s.v, f.dummyDue), f, p, count, lit);
    NextEnableVsync(g, k, e, f.dummyDue);
    OnlyVsync(g, NextEnable(g, k, e, f.dummyDue), EnableMoved(g, k, e, f.dummyDue), NextScan(g, k, f.dummyDue),
              Generate(s).field, q, if q == ORIGIN then CountAfter(count, lit) else count, lit || q == ORIGIN);
    OriginWithin(g);
  }

  lemma OriginWithin(g: Regs)
    ensures forall dummy :: Within(g, ORIGIN, dummy)
  {
  }

  /** The frame counter's condition reads only the vertical display bit. */
  lemma OnlyVsync(g: Regs, a: Enable, m: Enable, k: Scan, f: Field, p: Place, count: nat, lit: bool)
    requires a.vsync == (m.vsync && !DisplayEnds(g, k, m))
    ensures FieldAt(g, a, f, p, count, lit)
         == FieldAt(g, m.(vsync := m.vsync && !DisplayEnds(g, k, m)), f, p, count, lit)
  {
  }

  lemma EndIsDecided(g: Regs, e: Enable, f: Field, p: Place, count: nat, lit: bool)
    requires Timed(g) && FieldAt(g, e, f, p, count, lit)
    ensures Decided(g, p, f.dummyDue, DummyDue(g, count, lit))
  {
  }

  lemma FieldCallMoves(g: Regs, k: Scan, e: Enable, k': Scan, v: VPulse, f: Field, p: Place, count: nat, lit: bool)
    requires Timed(g) && Within(g, p, DummyDue(g, count, lit)) && FieldAt(g, e, f, p, count, lit)
    requires Decided(g, p, f.dummyDue, DummyDue(g, count, lit)) && Holds(g, k, p)
    requires k' == NextScan(g, k, f.dummyDue) && Holds(g, k', NextPlace(g, p, DummyDue(g, count, lit)))
    ensures var q := NextPlace(g, p, DummyDue(g, count, lit));
            var m := EnableMoved(g, k, e, f.dummyDue);
            var e' := m.(vsync := m.vsync && !DisplayEnds(g, k', m));
            if q == ORIGIN then FieldAt(g, e', FieldAfter(g, k', m, v, f), q, CountAfter(count, lit), true)
            else FieldAt(g, e', FieldAfter(g, k', m, v, f), q, count, lit)
  {
    if g.mode == 1 {
      hide EndingAt, FetchAt, NextScan, EnableMoved, FieldAfter, DisplayEnds;
      var m := EnableMoved(g, k, e, f.dummyDue);
      EnableVsync(g, k, e, f.dummyDue);
      BeamMoves(g, k, p, f.dummyDue, DummyDue(g, count, lit));
      if NextPlace(g, p, DummyDue(g, count, lit)) == ORIGIN {
        FieldRestarts(g, k', m, v, f, CountAfter(count, lit));
      } else {
        FieldMoves(g, k', m, v, f, p, count, lit);
      }
    }
  }

  // ---------------------------------------------------------------- whole frames

  function After(s: State, calls: nat): (r: State)
    requires InRange(s)
    ensures InRange(r)
  {
    if calls == 0 then s else Generate(After(s, calls - 1))
  }

  lemma NoneYet(s: State)
    requires InRange(s)
    ensures After(s, 0) == s && After(s, 1) == Generate(s)
  {
    hide Generate;
  }

  lemma {:induction false} RegsStay(s: State, n: nat)
    requires InRange(s)
    ensures After(s, n).regs == s.regs
  {
    hide InRange;
    if n > 0 {
      RegsStay(s, n - 1);
      OneCallKeepsRegs(After(s, n - 1));
    }
  }

  lemma OneCallKeepsRegs(s: State)
    requires InRange(s)
    ensures Generate(s).regs == s.regs
  {
  }

  lemma {:induction false} AfterMore(s: State, a: nat, b: nat)
    requires InRange(s)
    ensures After(s, a + b) == After(After(s, a), b)
  {
    hide Generate, InRange;
    if b > 0 {
      AfterMore(s, a, b - 1);
      assert a + b - 1 == a + (b - 1);
    }
  }

  function PlaceAfter(g: Regs, calls: nat, dummy: bool): Place {
    if calls == 0 then ORIGIN else NextPlace(g, PlaceAfter(g, calls - 1, dummy), dummy)
  }

  lemma {:induction false} Reaches(s: State, g: Regs, calls: nat, count: nat, lit: bool)
    requires Timed(g) && At(s, g, ORIGIN, count, lit) && calls < FrameCalls(g, DummyDue(g, count, lit))
    ensures var p := PlaceAfter(g, calls, DummyDue(g, count, lit));
            CallsTo(g, p) == calls && At(After(s, calls), g, p, count, lit)
  {
    hide NextPlace, Timed, FrameCalls, DummyDue, Generate, At, CallsTo, CountAfter;
    AtWithin(s, g, ORIGIN, count, lit);
    if calls == 0 {
      assert CallsTo(g, ORIGIN) == 0 by { OriginIsFirst(g); }
    } else {
      Reaches(s, g, calls - 1, count, lit);
      var p := PlaceAfter(g, calls - 1, DummyDue(g, count, lit));
      AtWithin(After(s, calls - 1), g, p, count, lit);
      PlaceMoves(g, p, DummyDue(g, count, lit));
      CallMoves(After(s, calls - 1), g, p, count, lit);
      OriginIsFirst(g);
    }
  }

  lemma OriginIsFirst(g: Regs)
    ensures CallsTo(g, ORIGIN) == 0
  {
  }

  lemma AtWithin(s: State, g: Regs, p: Place, count: nat, lit: bool)
    requires At(s, g, p, count, lit)
    ensures Within(g, p, DummyDue(g, count, lit)) && InRange(s)
  {
  }

  /** A frame takes FrameCalls calls: no fewer reach the start of the next one, and that many do. */
  lemma FrameTakes(s: State, g: Regs, count: nat, lit: bool)
    requires Timed(g) && At(s, g, ORIGIN, count, lit)
    ensures At(After(s, FrameCalls(g, DummyDue(g, count, lit))), g, ORIGIN, CountAfter(count, lit), true)
    ensures forall n | 0 < n < FrameCalls(g, DummyDue(g, count, lit)) :: !After(s, n).scan.opening.ofFrame
  {
    hide NextPlace, Timed, FrameCalls, DummyDue, Generate, CallsTo, CountAfter, EndingAt, FetchAt, BeamAt, Within;
    var dummy := DummyDue(g, count, lit);
    OriginWithin(g);
    PlaceMoves(g, ORIGIN, dummy);
    OriginIsFirst(g);
    var n := FrameCalls(g, dummy) - 1;
    Reaches(s, g, n, count, lit);
    var p := PlaceAfter(g, n, dummy);
    PlaceMoves(g, p, dummy);
    CallMoves(After(s, n), g, p, count, lit);
    forall n | 0 < n < FrameCalls(g, dummy) ensures !After(s, n).scan.opening.ofFrame {
      Reaches(s, g, n, count, lit);
    }
  }

  /** So many scan lines more than `times` frames of the picture's lines and the adjust lines. */
  function FrameLength(g: Regs, times: nat, more: nat): nat {
    (times * ((g.vertTotal + 1) * (g.rasters + 1) + g.vertAdjust) + more) * (g.horzTotal + 1)
  }

  /** How many calls precede character c of raster k of row r in a frame. */
  function Rank(g: Regs, r: nat, k: nat, c: nat): nat {
    (r * (g.rasters + 1) + k) * (g.horzTotal + 1) + c
  }

  function Times(n: nat, length: nat): nat {
    n * length
  }

  lemma OnceMore(n: nat, length: nat)
    requires 0 < n
    ensures Times(n, length) == Times(n - 1, length) + length
  {
    assert n * length == (n - 1) * length + length;
  }

  lemma FrameCallsIs(g: Regs, dummy: bool)
    ensures FrameCalls(g, dummy) == FrameLength(g, 1, if dummy then 1 else 0)
  {
    LinesIs(g, g.vertTotal + 1);
  }

  lemma {:induction false} FramesGoOn(s: State, g: Regs, frames: nat, length: nat)
    requires Timed(g) && g.mode % 2 == 0 && At(s, g, ORIGIN, 0, true) && length == FrameCalls(g, false)
    ensures At(After(s, Times(frames, length)), g, ORIGIN, 0, true)
  {
    hide At, Timed, Stored, FrameCalls, After, InRange, FieldAt, Times;
    AtWithin(s, g, ORIGIN, 0, true);
    if frames == 0 {
      NoCalls(s, length);
    } else {
      FramesGoOn(s, g, frames - 1, length);
      var t := After(s, Times(frames - 1, length));
      FrameTakes(t, g, 0, true);
      CountIsIdle(After(t, length), g, CountAfter(0, true));
      AfterMore(s, Times(frames - 1, length), length);
      OnceMore(frames, length);
    }
  }

  lemma NoCalls(s: State, length: nat)
    requires InRange(s)
    ensures After(s, Times(0, length)) == s
  {
  }

  /** Without interlace nothing depends on the frame count. */
  lemma CountIsIdle(s: State, g: Regs, count: nat)
    requires g.mode % 2 == 0 && At(s, g, ORIGIN, count, true)
    ensures At(s, g, ORIGIN, 0, true)
  {
  }

  /** Without interlace, every frame of an unbounded run takes (R0+1)((R4+1)(R9+1)+R5) calls. */
  lemma FramesAreEven(s: State, g: Regs, frames: nat)
    requires Timed(g) && g.mode % 2 == 0 && At(s, g, ORIGIN, 0, true)
    ensures At(After(s, Times(frames, FrameLength(g, 1, 0))), g, ORIGIN, 0, true)
  {
    hide At, Timed, After, FrameCalls, FrameLength, Times;
    FrameCallsIs(g, false);
    FramesGoOn(s, g, frames, FrameCalls(g, false));
  }

  lemma PairTakes(s: State, g: Regs, count: nat)
    requires Timed(g) && g.mode == 1 && count < 256 && At(s, g, ORIGIN, count, true)
    ensures At(After(s, FrameCalls(g, false) + FrameCalls(g, true)), g, ORIGIN, (count + 2) % 256, true)
  {
    hide At, Generate, After, FrameCalls, Timed, InRange, Stored;
    var odd := (count + 1) % 256;
    var first, second := FrameCalls(g, DummyDue(g, count, true)), FrameCalls(g, DummyDue(g, odd, true));
    AtWithin(s, g, ORIGIN, count, true);
    FrameTakes(s, g, count, true);
    FrameTakes(After(s, first), g, odd, true);
    AfterMore(s, first, second);
  }

  lemma TwoMore(count: nat, pairs: nat)
    requires 0 < pairs
    ensures ((count + 2 * (pairs - 1)) % 256 + 2) % 256 == (count + 2 * pairs) % 256
  {
  }

  lemma {:induction false} PairsGoOn(s: State, g: Regs, pairs: nat, count: nat, length: nat)
    requires Timed(g) && g.mode == 1 && count < 256 && At(s, g, ORIGIN, count, true)
    requires length == FrameCalls(g, false) + FrameCalls(g, true)
    ensures At(After(s, Times(pairs, length)), g, ORIGIN, (count + 2 * pairs) % 256, true)
  {
    hide At, Timed, Stored, FrameCalls, After, InRange, Times;
    AtWithin(s, g, ORIGIN, count, true);
    if pairs == 0 {
      NoCalls(s, length);
    } else {
      PairsGoOn(s, g, pairs - 1, count, length);
      PairTakes(After(s, Times(pairs - 1, length)), g, (count + 2 * (pairs - 1)) % 256);
      AfterMore(s, Times(pairs - 1, length), length);
      OnceMore(pairs, length);
      TwoMore(count, pairs);
    }
  }

  lemma PairIs(g: Regs)
    ensures FrameCalls(g, false) + FrameCalls(g, true) == FrameLength(g, 2, 1)
  {
    hide Calls, Lines, FrameLines, FrameCalls;
    FrameCallsIs(g, false);
    FrameCallsIs(g, true);
    var lines, wide := (g.vertTotal + 1) * (g.rasters + 1) + g.vertAdjust, g.horzTotal + 1;
    assert (2 * lines + 1) * wide == lines * wide + (lines + 1) * wide;
  }

  /**
   * With interlace, frames alternate: whatever the first one's parity, the two of them take one scan line more
   * than twice the picture and the adjust lines, and so on for every later pair.
   */
  lemma FramesPairUp(s: State, g: Regs, pairs: nat, count: nat)
    requires Timed(g) && g.mode == 1 && count < 256 && At(s, g, ORIGIN, count, true)
    ensures At(After(s, Times(pairs, FrameLength(g, 2, 1))), g, ORIGIN, (count + 2 * pairs) % 256, true)
  {
    hide At, Timed, After, FrameCalls, FrameLength, Times;
    PairIs(g);
    PairsGoOn(s, g, pairs, count, FrameCalls(g, false) + FrameCalls(g, true));
  }

  /** The counters at a place, and the address that the call which reached it has put out. */
  lemma PlaceReached(s: State, g: Regs, p: Place, calls: nat, count: nat, lit: bool)
    requires Timed(g) && At(s, g, ORIGIN, count, lit) && Within(g, p, DummyDue(g, count, lit))
    requires calls == CallsTo(g, p)
    ensures At(After(s, calls), g, p, count, lit)
  {
    hide At, NextPlace, Timed, FrameCalls, Generate, CallsTo, CountAfter, DummyDue, After;
    var dummy := DummyDue(g, count, lit);
    AtWithin(s, g, ORIGIN, count, lit);
    PlaceMoves(g, p, dummy);
    Reaches(s, g, calls, count, lit);
    AtWithin(After(s, calls), g, PlaceAfter(g, calls, dummy), count, lit);
    PlacesDiffer(g, p, PlaceAfter(g, calls, dummy), dummy);
  }

  lemma CharacterThere(t: State, g: Regs, p: Place, count: nat, lit: bool)
    requires p.Main? && p != ORIGIN && At(t, g, p, count, lit)
    ensures t.scan.beam == Beam(p.col, p.row, p.raster)
    ensures t.scan.fetch.linear == (g.start + p.row * g.horzDisp + p.col) % 0x4000
  {
    hide EndingAt, RowStart, FieldAt;
    RowStartIs(g, p.row);
    WrapsOnce(g.start + p.row * g.horzDisp, p.col);
  }

  lemma RankIs(g: Regs, r: nat, k: nat, c: nat)
    ensures CallsTo(g, Main(r, k, c)) == Rank(g, r, k, c)
  {
    LinesIs(g, r);
  }

  lemma AddressThere(s: State, calls: nat)
    requires InRange(s) && 0 < calls
    ensures var t := After(s, calls);
            t.scroll == s.scroll && t.address == Output(t.scan.fetch.linear, t.scan.beam.raster, s.scroll)
  {
    hide InRange, Output;
    ScrollStays(s, calls);
  }

  lemma {:induction false} ScrollStays(s: State, calls: nat)
    requires InRange(s)
    ensures After(s, calls).scroll == s.scroll
  {
    if calls > 0 {
      ScrollStays(s, calls - 1);
    }
  }

  /**
   * The closed form within a frame: at character c of raster k of row r, the call count from the frame's start
   * is the place's rank, the counters name the place, the linear address is R12/R13 + r*R1 + c, and the address
   * on the bus is that of this character's byte.
   */
  lemma CharacterAt(s: State, g: Regs, r: nat, k: nat, c: nat, count: nat, lit: bool)
    requires Timed(g) && At(s, g, ORIGIN, count, lit)
    requires r <= g.vertTotal && k <= g.rasters && c <= g.horzTotal && Main(r, k, c) != ORIGIN
    ensures var t := After(s, Rank(g, r, k, c));
            t.scan.beam == Beam(c, r, k) && t.scan.fetch.linear == (g.start + r * g.horzDisp + c) % 0x4000 &&
            t.address == Output(t.scan.fetch.linear, k, s.scroll)
  {
    hide At, Timed, CallsTo, After, Output, InRange, Generate, Rank;
    AtWithin(s, g, ORIGIN, count, lit);
    RankIs(g, r, k, c);
    var n := CallsTo(g, Main(r, k, c));
    PlaceReached(s, g, Main(r, k, c), n, count, lit);
    CharacterThere(After(s, n), g, Main(r, k, c), count, lit);
    NotFirst(g, Main(r, k, c));
    AddressThere(s, n);
  }

  lemma NotFirst(g: Regs, p: Place)
    requires p.Main? && p != ORIGIN
    ensures 0 < CallsTo(g, p)
  {
    if p.row > 0 {
      LinesGrow(g, 0, p.row);
    }
    if p.row > 0 || p.raster > 0 {
      CallsGrow(g, 0, LineOf(g, p), 0);
    }
  }

  /** The state that a frame before this one leaves: its last call has put out the first character's address. */
  predicate Begun(s: State, g: Regs) {
    s.regs == g && InRange(s) && s.scan.fetch.linear == g.start && s.address == Output(g.start, 0, s.scroll)
  }

  lemma WrapBegins(s: State, g: Regs)
    requires s.regs == g && InRange(s) && Generate(s).scan.opening.ofFrame
    ensures Begun(Generate(s), g)
  {
    hide Output, NextV, NextH, NextEnable, FieldAfter, NextEnding, EndsFrame;
  }

  lemma FrameBegins(s: State, g: Regs, count: nat, lit: bool)
    requires Timed(g) && At(s, g, ORIGIN, count, lit)
    ensures Begun(After(s, FrameCalls(g, DummyDue(g, count, lit))), g)
  {
    hide NextPlace, Timed, FrameCalls, DummyDue, Generate, CallsTo, CountAfter, EndingAt, FetchAt, BeamAt, Within,
      Begun;
    var n := FrameCalls(g, DummyDue(g, count, lit));
    FrameTakes(s, g, count, lit);
    OriginWithin(g);
    PlaceMoves(g, ORIGIN, DummyDue(g, count, lit));
    Reaches(s, g, n - 1, count, lit);
    WrapBegins(After(s, n - 1), g);
  }

  // ---------------------------------------------------------------- the frames of an unbounded run

  /** Whether the nth frame from here begins with its display lit: only this one may not. */
  predicate LitAt(lit: bool, n: nat) {
    0 < n || lit
  }

  /** The frame count as the nth frame begins. */
  function CountAt(count: nat, lit: bool, n: nat): nat {
    if n == 0 then count else CountAfter(CountAt(count, lit, n - 1), LitAt(lit, n - 1))
  }

  /** The calls before the nth frame from here. */
  function FrameStart(g: Regs, count: nat, lit: bool, n: nat): nat {
    if n == 0 then 0
    else
      FrameStart(g, count, lit, n - 1)
        + FrameCalls(g, DummyDue(g, CountAt(count, lit, n - 1), LitAt(lit, n - 1)))
  }

  /** Every frame of a run starts there, and all but the first with its first character's address on the bus. */
  lemma {:induction false} EveryFrameBegins(s: State, g: Regs, count: nat, lit: bool, n: nat)
    requires Timed(g) && At(s, g, ORIGIN, count, lit)
    ensures InRange(s)
    ensures At(After(s, FrameStart(g, count, lit, n)), g, ORIGIN, CountAt(count, lit, n), LitAt(lit, n))
    ensures 0 < n ==> Begun(After(s, FrameStart(g, count, lit, n)), g)
  {
    hide At, Timed, InRange, FrameCalls, DummyDue, CountAfter, Begun, Generate;
    AtWithin(s, g, ORIGIN, count, lit);
    if n == 0 {
      NoneYet(s);
    } else {
      EveryFrameBegins(s, g, count, lit, n - 1);
      var from, c, l := FrameStart(g, count, lit, n - 1), CountAt(count, lit, n - 1), LitAt(lit, n - 1);
      FrameTakes(After(s, from), g, c, l);
      FrameBegins(After(s, from), g, c, l);
      AfterMore(s, from, FrameCalls(g, DummyDue(g, c, l)));
    }
  }

  /** A reset that finds none of the latches of the frame's end set is at the origin of a frame, unlit. */
  lemma ResetAtOrigin(s: State, g: Regs)
    requires Timed(g) && s.regs == g && InRange(s)
    requires s.scan.ending == Ending(s.scan.ending.lines, false, false, false, false, false, false)
    ensures At(Reset(s), g, ORIGIN, s.field.count, false)
  {
  }
}
