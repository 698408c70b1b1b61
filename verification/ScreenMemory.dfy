// Hardware scroll: the wrap of the CRTC's address makes the screen a ring buffer, so that a frame fetches
// no displayed byte twice, wherever in the screen it starts.

module ScreenMemory {
  import opened CrtcSpec
  import opened CrtcFrames

  /** The four settings of the two hardware scroll bits, in the high half of the latch. */
  predicate Setting(scroll: nat) {
    scroll / 16 < 4
  }

  function Size(scroll: nat): nat
    requires Setting(scroll)
  {
    Subtrahend(scroll)
  }

  /** The screen ends where the memory does. */
  function Bottom(scroll: nat): nat
    requires Setting(scroll)
  {
    0x8000 - Size(scroll)
  }

  /** Screens of 16, 8, 20 and 10 kilobytes, which the four settings put at 4000, 6000, 3000 and 5800. */
  lemma ScreensAre()
    ensures Bottom(0x00) == 0x4000 && Bottom(0x10) == 0x6000 && Bottom(0x20) == 0x3000 && Bottom(0x30) == 0x5800
  {
  }

  /** The graphics modes' characters a row and rows fit the screen of their setting. */
  lemma ModesFit(mode: nat, width: nat, rows: nat, scroll: nat)
    requires match mode
             case 3 => width == 80 && rows == 25 && scroll == 0x00
             case 4 => width == 40 && rows == 32 && scroll == 0x30
             case 5 => width == 40 && rows == 32 && scroll == 0x30
             case 6 => width == 40 && rows == 25 && scroll == 0x10
             case _ => mode < 3 && width == 80 && rows == 32 && scroll == 0x20
    ensures rows * width * 8 <= Size(scroll) < rows * width * 8 + 0x200
  {
  }

  /** A character address whose eight bytes are in the screen. */
  predicate StartsInside(scroll: nat, start: nat)
    requires Setting(scroll)
  {
    Bottom(scroll) <= start * 8 < 0x8000
  }

  /** A distance of less than twice round the ring, taken round it. */
  function Around(distance: nat, size: nat): nat {
    if distance < size then distance else distance - size
  }

  lemma AroundIsRemainder(distance: nat, size: nat)
    requires 0 < size && distance < 2 * size
    ensures Around(distance, size) == distance % size
  {
    if size <= distance {
      assert distance / size == 1;
    }
  }

  /** So many characters on from a start inside the screen, the fetched byte is so many bytes round the ring. */
  lemma FetchIsARing(scroll: nat, start: nat, on: nat, k: nat)
    requires Setting(scroll) && StartsInside(scroll, start) && on * 8 < Size(scroll) && k < 8
    ensures start + on < 0x4000
    ensures var distance := start * 8 - Bottom(scroll) + on * 8 + k;
            && Output(start + on, k, scroll) == Bottom(scroll) + Around(distance, Size(scroll))
            && Output(start + on, k, scroll) == Bottom(scroll) + distance % Size(scroll)
  {
    AroundIsRemainder(start * 8 - Bottom(scroll) + on * 8 + k, Size(scroll));
    RingAddress(scroll, start, on, k);
  }

  lemma RingAddress(scroll: nat, start: nat, on: nat, k: nat)
    requires Setting(scroll) && StartsInside(scroll, start) && on * 8 < Size(scroll) && k < 8
    ensures start + on < 0x4000
    ensures Output(start + on, k, scroll)
         == Bottom(scroll) + Around(start * 8 - Bottom(scroll) + on * 8 + k, Size(scroll))
  {
    var linear := start + on;
    assert linear < 0x2000 && k % 8 == k;
    if linear < 0x1000 {
      assert linear / 0x1000 == 0;
    } else {
      assert linear / 0x1000 == 1;
      assert (k + linear * 8 - Subtrahend(scroll)) % 0x10000 == k + linear * 8 - Subtrahend(scroll);
    }
  }

  /** Every byte of the screen is fetched at one distance round the ring, and at no other. */
  lemma RingIsOneToOne(scroll: nat, start: nat, at: nat)
    requires Setting(scroll) && StartsInside(scroll, start) && Bottom(scroll) <= at < 0x8000
    ensures exists on: nat, k: nat :: Fetches(scroll, start, on, k, at)
    ensures forall on: nat, k: nat, on': nat, k': nat ::
              Fetches(scroll, start, on, k, at) && Fetches(scroll, start, on', k', at)
              ==> on == on' && k == k'
  {
    hide Output, Size, StartsInside, Fetches;
    var size, from := Size(scroll), start * 8 - Bottom(scroll);
    SizeIs(scroll, start);
    var on, k := DistanceTo(from, at - Bottom(scroll), size);
    FetchIsARing(scroll, start, on, k);
    AreFetched(scroll, start, on, k, at);
    forall on: nat, k: nat, on': nat, k': nat | Fetches(scroll, start, on, k, at) && Fetches(scroll, start, on', k', at)
      ensures on == on' && k == k'
    {
      FetchedOnce(scroll, start, on, k, on', k', at);
    }
  }

  lemma SizeIs(scroll: nat, start: nat)
    requires Setting(scroll) && StartsInside(scroll, start)
    ensures Size(scroll) % 8 == 0 && Size(scroll) <= 0x8000 && 0 <= start * 8 - Bottom(scroll) < Size(scroll)
  {
  }

  /** How far round the ring, in characters and bytes, it is from one byte to another. */
  lemma DistanceTo(from: nat, to: nat, size: nat) returns (on: nat, k: nat)
    requires from < size && to < size && size % 8 == 0
    ensures on * 8 < size && k < 8 && Around(from + on * 8 + k, size) == to
  {
    var distance: int := to - from;
    if distance < 0 { distance := distance + size; }
    on, k := distance / 8, distance % 8;
  }

  predicate Fetches(scroll: nat, start: nat, on: nat, k: nat, at: nat)
    requires Setting(scroll) && StartsInside(scroll, start)
  {
    on * 8 < Size(scroll) && k < 8 && Output((start + on) % 0x4000, k, scroll) == at
  }

  lemma AreFetched(scroll: nat, start: nat, on: nat, k: nat, at: nat)
    requires Setting(scroll) && StartsInside(scroll, start) && on * 8 < Size(scroll) && k < 8
    ensures Fetches(scroll, start, on, k, at)
        <==> Around(start * 8 - Bottom(scroll) + on * 8 + k, Size(scroll)) == at - Bottom(scroll)
  {
    hide Output;
    FetchIsARing(scroll, start, on, k);
  }

  lemma FetchedOnce(scroll: nat, start: nat, on: nat, k: nat, on': nat, k': nat, at: nat)
    requires Setting(scroll) && StartsInside(scroll, start)
    requires Fetches(scroll, start, on, k, at) && Fetches(scroll, start, on', k', at)
    ensures on == on' && k == k'
  {
    hide Output, Size, StartsInside;
    AreFetched(scroll, start, on, k, at);
    AreFetched(scroll, start, on', k', at);
    SizeIs(scroll, start);
    AroundOnce(start * 8 - Bottom(scroll), on * 8 + k, on' * 8 + k', Size(scroll));
  }

  lemma AroundOnce(from: nat, a: nat, b: nat, size: nat)
    requires from < size && a < size && b < size && Around(from + a, size) == Around(from + b, size)
    ensures a == b
  {
  }

  /** Teletext, whatever the raster and the scroll: from any start in its kilobyte the addresses go round it. */
  lemma TeletextIsARing(start: nat, on: nat, other: nat, raster: nat, scroll: nat)
    requires 0x2800 <= start < 0x2c00 && on < 0x400 && other < 0x400
    ensures Output(start + on, raster, scroll) == 0x7c00 + (start - 0x2800 + on) % 0x400
    ensures Output(start + on, raster, scroll) == Output(start + other, raster, scroll) <==> on == other
  {
    TeletextAt(start + on, raster, scroll);
    TeletextAt(start + other, raster, scroll);
    hide Output;
    if Output(start + on, raster, scroll) == Output(start + other, raster, scroll) {
      OnceRound(start, on, other);
    }
  }

  /** Each of its bytes is fetched. */
  lemma TeletextFetches(start: nat, at: nat, raster: nat, scroll: nat) returns (on: nat)
    requires 0x2800 <= start < 0x2c00 && 0x7c00 <= at < 0x8000
    ensures on < 0x400 && Output(start + on, raster, scroll) == at
  {
    on := if start - 0x2800 <= at - 0x7c00 then at - 0x7c00 - (start - 0x2800) else at - 0x7800 - (start - 0x2800);
    TeletextAt(start + on, raster, scroll);
  }

  lemma TeletextAt(linear: nat, raster: nat, scroll: nat)
    requires 0x2800 <= linear < 0x3000
    ensures Output(linear, raster, scroll) == 0x7c00 + (linear - 0x2800) % 0x400
  {
    assert linear / 0x2000 == 1;
    assert linear / 0x800 == 5;
  }

  lemma OnceRound(start: nat, a: nat, b: nat)
    requires 0x2800 <= start && a < 0x400 && b < 0x400
    requires (start - 0x2800 + a) % 0x400 == (start - 0x2800 + b) % 0x400
    ensures a == b
  {
  }

  /** With bit 11 clear they go round the kilobyte at 3C00 instead. */
  lemma LowTeletext(linear: nat, raster: nat, scroll: nat)
    requires 0x2000 <= linear < 0x2800
    ensures Output(linear, raster, scroll) == 0x3c00 + (linear - 0x2000) % 0x400
  {
    assert linear / 0x2000 == 1;
    assert linear / 0x800 == 4;
  }

  /** The displayed places of a frame: R6 rows of R1 characters, rasters 0 to 7. */
  predicate Displayed(g: Regs, r: nat, k: nat, c: nat) {
    r < g.vertDisp && c < g.horzDisp && k < 8 && k <= g.rasters && r <= g.vertTotal
  }

  lemma {:induction false} RowsGrow(a: nat, b: nat, width: nat)
    requires a < b
    ensures a * width + width <= b * width
  {
    assert b * width == (b - 1) * width + width;
    if a < b - 1 {
      RowsGrow(a, b - 1, width);
    }
  }

  /** Characters of different places are at different distances from the first. */
  lemma PlacesAreDistances(g: Regs, r: nat, c: nat, r': nat, c': nat)
    requires c < g.horzDisp && c' < g.horzDisp && r * g.horzDisp + c == r' * g.horzDisp + c'
    ensures r == r' && c == c'
  {
    if r < r' {
      RowsGrow(r, r', g.horzDisp);
    } else if r' < r {
      RowsGrow(r', r, g.horzDisp);
    }
  }

  lemma DistanceFits(g: Regs, r: nat, k: nat, c: nat, size: nat)
    requires Displayed(g, r, k, c) && g.vertDisp * g.horzDisp * 8 <= size
    ensures (r * g.horzDisp + c) * 8 < size
  {
    RowsGrow(r, g.vertDisp, g.horzDisp);
  }

  /** The address put out at a displayed place is fetched at the place's distance round the ring. */
  lemma PlaceFetches(s: State, g: Regs, r: nat, k: nat, c: nat, on: nat, count: nat, lit: bool)
    requires Timed(g) && At(s, g, ORIGIN, count, lit) && Setting(s.scroll)
    requires StartsInside(s.scroll, g.start) && Displayed(g, r, k, c) && Begun(s, g)
    requires on == r * g.horzDisp + c && on * 8 < Size(s.scroll)
    ensures InRange(s) && Fetches(s.scroll, g.start, on, k, After(s, Rank(g, r, k, c)).address)
  {
    hide At, Output, Size, InRange, StartsInside, Generate;
    AtWithin(s, g, ORIGIN, count, lit);
    if Main(r, k, c) != ORIGIN {
      hide After, Rank, Begun;
      CharacterAt(s, g, r, k, c, count, lit);
    }
  }

  lemma FetchedInside(scroll: nat, start: nat, on: nat, k: nat, at: nat)
    requires Setting(scroll) && StartsInside(scroll, start) && Fetches(scroll, start, on, k, at)
    ensures Bottom(scroll) <= at < 0x8000
  {
    hide Output, Size, StartsInside;
    AreFetched(scroll, start, on, k, at);
    SizeIs(scroll, start);
  }

  /**
   * In a frame of a screen that fits its memory, the addresses put out at two displayed places differ, and each
   * is in the screen.
   */
  lemma NoByteTwiceInFrame(s: State, g: Regs, r: nat, k: nat, c: nat, r': nat, k': nat, c': nat,
                           count: nat, lit: bool)
    requires Timed(g) && At(s, g, ORIGIN, count, lit) && Setting(s.scroll)
    requires StartsInside(s.scroll, g.start) && g.vertDisp * g.horzDisp * 8 <= Size(s.scroll)
    requires Displayed(g, r, k, c) && Displayed(g, r', k', c') && Main(r, k, c) != Main(r', k', c')
    requires Begun(s, g)
    ensures After(s, Rank(g, r, k, c)).address != After(s, Rank(g, r', k', c')).address
    ensures Bottom(s.scroll) <= After(s, Rank(g, r, k, c)).address < 0x8000
  {
    hide Timed, At, After, Rank, Output, StartsInside, Size, Fetches, Begun;
    DistanceFits(g, r, k, c, Size(s.scroll));
    DistanceFits(g, r', k', c', Size(s.scroll));
    var on, on' := r * g.horzDisp + c, r' * g.horzDisp + c';
    PlaceFetches(s, g, r, k, c, on, count, lit);
    PlaceFetches(s, g, r', k', c', on', count, lit);
    FetchedInside(s.scroll, g.start, on, k, After(s, Rank(g, r, k, c)).address);
    if After(s, Rank(g, r, k, c)).address == After(s, Rank(g, r', k', c')).address {
      FetchedOnce(s.scroll, g.start, on, k, on', k', After(s, Rank(g, r, k, c)).address);
      PlacesAreDistances(g, r, c, r', c');
    }
  }

  /**
   * In every frame of an unbounded run but the first, for a screen that fits its memory: the addresses put out at two
   * displayed places differ, and each is in the screen.
   */
  lemma NoByteFetchedTwice(s: State, g: Regs, n: nat, r: nat, k: nat, c: nat, r': nat, k': nat, c': nat,
                           count: nat, lit: bool)
    requires Timed(g) && At(s, g, ORIGIN, count, lit) && Setting(s.scroll) && 0 < n
    requires StartsInside(s.scroll, g.start) && g.vertDisp * g.horzDisp * 8 <= Size(s.scroll)
    requires Displayed(g, r, k, c) && Displayed(g, r', k', c') && Main(r, k, c) != Main(r', k', c')
    ensures InRange(s)
    ensures var from := FrameStart(g, count, lit, n);
            var one, other := After(s, from + Rank(g, r, k, c)).address, After(s, from + Rank(g, r', k', c')).address;
            one != other && Bottom(s.scroll) <= one < 0x8000
  {
    hide Timed, At, After, Rank, Output, StartsInside, Size, Bottom, Displayed, Begun, FrameStart, CountAt, InRange;
    var from := FrameStart(g, count, lit, n);
    EveryFrameBegins(s, g, count, lit, n);
    ScrollStays(s, from);
    AfterMore(s, from, Rank(g, r, k, c));
    AfterMore(s, from, Rank(g, r', k', c'));
    NoByteTwiceInFrame(After(s, from), g, r, k, c, r', k', c', CountAt(count, lit, n), LitAt(lit, n));
  }
}
