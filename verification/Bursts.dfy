// Error bursts: the CRC bit by bit, and the proof that two strings of one length that differ only within sixteen
// consecutive bits have different CRCs.

module Bursts {
  import opened Bits
  import opened Crc

  // ---------------------------------------------------------------- the CRC bit by bit

  function Lead(bit: bool): word {
    if bit then TOP else 0
  }

  function Feed(x: word, bit: bool): word {
    Turn(XorWord(x, Lead(bit)))
  }

  function FeedAll(x: word, bits: seq<bool>): word
    decreases bits
  {
    if bits == [] then x else FeedAll(Feed(x, bits[0]), bits[1..])
  }

  /** The top n bits of a word, from the top down. */
  function TopBits(v: word, n: nat): (bits: seq<bool>)
    ensures |bits| == n
    decreases n
  {
    if n == 0 then [] else [TOP <= v] + TopBits(v % TOP * 2, n - 1)
  }

  function High(c: byte): word {
    c * 256
  }

  /** A byte string as a stream of bits, each byte from its top bit down. */
  function Stream(data: seq<byte>): (bits: seq<bool>)
    ensures |bits| == 8 * |data|
  {
    if data == [] then [] else Stream(data[..|data| - 1]) + TopBits(High(data[|data| - 1]), 8)
  }

  lemma {:induction false} FeedMore(x: word, p: seq<bool>, q: seq<bool>)
    ensures FeedAll(x, p + q) == FeedAll(FeedAll(x, p), q)
    decreases p
  {
    hide Feed;
    if p == [] {
      assert p + q == q;
    } else {
      FeedMore(Feed(x, p[0]), p[1..], q);
      assert (p + q)[1..] == p[1..] + q;
    }
  }

  /** One turn takes the top bit of what is to come together with the state. */
  lemma TurnFeeds(v: word, x: word)
    ensures Turn(XorWord(v, x)) == XorWord(v % TOP * 2, Feed(x, TOP <= v))
  {
    hide Xor, Turn;
    var r := v % TOP;
    LowTurn(r);
    if TOP <= v {
      TopBitStays(r, 0);
      XorZero(r);
      XorSwaps(TOP, r);
      LeadSplits(r);
      XorRegroups(r, TOP, x);
      XorSwaps(TOP, x);
    } else {
      XorZero(x);
    }
    TurnIsLinear(r, XorWord(x, Lead(TOP <= v)));
  }

  lemma LeadSplits(r: nat)
    requires r < TOP
    ensures Xor(r, TOP) == TOP + r
  {
    hide Xor;
    XorSwaps(r, TOP);
    HighBitsMeet(r, 0);
    TopBitStays(0, r);
    XorZero(r);
  }

  /** The low bits of a word, of which all but the top n are clear. */
  predicate Clear(v: nat, n: nat) {
    n == 0 || (v % 2 == 0 && Clear(v / 2, n - 1))
  }

  lemma {:induction false} ClearIsZero(v: nat, n: nat)
    requires Clear(v, n) && v < Power(n)
    ensures v == 0
  {
    if n > 0 {
      ClearIsZero(v / 2, n - 1);
    }
  }

  lemma {:induction false} ClearOfZero(n: nat)
    ensures Clear(0, n)
  {
    if n > 0 {
      ClearOfZero(n - 1);
    }
  }

  lemma {:induction false} ClearAbove(v: nat, m: nat, n: nat)
    requires Clear(v, n) && n <= m
    ensures Clear(v + Power(m), n) && (Power(m) <= v ==> Clear(v - Power(m), n))
  {
    if n > 0 {
      ClearAbove(v / 2, m - 1, n - 1);
    }
  }

  /** A word whose bits are among its top n is taken up by n turns. */
  lemma {:induction false} TurnsFeed(v: word, x: word, n: nat)
    requires n <= 16 && Clear(v, 16 - n)
    ensures Turns(XorWord(v, x), n) == FeedAll(x, TopBits(v, n))
    decreases n
  {
    hide Turn, Feed, Xor;
    WordPower();
    if n == 0 {
      ClearIsZero(v, 16);
      XorZero(x);
    } else {
      TurnFeeds(v, x);
      NextClear(v, 16 - n);
      TurnsFeed(v % TOP * 2, Feed(x, TOP <= v), n - 1);
      assert TopBits(v, n) == [TOP <= v] + TopBits(v % TOP * 2, n - 1);
      assert TopBits(v, n)[1..] == TopBits(v % TOP * 2, n - 1);
    }
  }

  lemma NextClear(v: word, n: nat)
    requires n < 16 && Clear(v, n)
    ensures Clear(v % TOP * 2, n + 1)
  {
    WordPower();
    if TOP <= v {
      ClearAbove(v, 15, n);
    }
  }

  lemma ClearHigh(c: byte)
    ensures Clear(High(c), 8)
  {
    hide Clear;
    ClearNone(c);
    ClearDouble(c, 0);
    ClearDouble(2 * c, 1);
    ClearDouble(4 * c, 2);
    ClearDouble(8 * c, 3);
    ClearDouble(16 * c, 4);
    ClearDouble(32 * c, 5);
    ClearDouble(64 * c, 6);
    ClearDouble(128 * c, 7);
  }

  lemma ClearNone(v: nat)
    ensures Clear(v, 0)
  {
  }

  lemma ClearDouble(v: nat, n: nat)
    requires Clear(v, n)
    ensures Clear(2 * v, n + 1)
  {
  }

  /** The CRC of a string is that of its stream, bit by bit. */
  lemma {:induction false} CrcIsFed(data: seq<byte>)
    ensures BitwiseCrc(data) == FeedAll(0, Stream(data))
  {
    hide Turns, Feed, Xor, TopBits;
    if data != [] {
      var front, c := data[..|data| - 1], data[|data| - 1];
      CrcIsFed(front);
      ClearHigh(c);
      TurnsFeed(High(c), BitwiseCrc(front), 8);
      FeedMore(0, Stream(front), TopBits(High(c), 8));
    }
  }

  // ---------------------------------------------------------------- differences

  /** Turning can be undone. */
  lemma TurnTells(x: word, y: word)
    requires Turn(x) == Turn(y)
    ensures x == y
  {
    hide Xor;
    if TOP <= x { TurnOfTop(x - TOP); }
    if TOP <= y { TurnOfTop(y - TOP); }
    if TOP <= x && TOP <= y {
      XorTells(x - TOP, y - TOP, 0x0810);
    }
  }

  lemma FeedTells(x: word, y: word, bit: bool)
    requires Feed(x, bit) == Feed(y, bit)
    ensures x == y
  {
    hide Turn, Xor;
    TurnTells(XorWord(x, Lead(bit)), XorWord(y, Lead(bit)));
    XorTells(x, y, Lead(bit));
  }

  /** States that differ still differ after the same bits. */
  lemma {:induction false} FeedAllTells(x: word, y: word, bits: seq<bool>)
    requires FeedAll(x, bits) == FeedAll(y, bits)
    ensures x == y
    decreases bits
  {
    hide Feed;
    if bits != [] {
      FeedAllTells(Feed(x, bits[0]), Feed(y, bits[0]), bits[1..]);
      FeedTells(x, y, bits[0]);
    }
  }

  /** A turn that leaves an even word has only doubled it. */
  lemma EvenTurn(d: word)
    requires Turn(d) % 2 == 0
    ensures d < TOP && Turn(d) == 2 * d
  {
    if TOP <= d {
      TurnOfTop(d - TOP);
    }
  }

  /** States that n bits bring together differ, before them, only in their top n bits. */
  lemma {:induction false} MeetingStates(x: word, y: word, u: seq<bool>, v: seq<bool>)
    requires |u| == |v| <= 16 && FeedAll(x, u) == FeedAll(y, v)
    ensures Clear(Xor(x, y), 16 - |u|)
    decreases u
  {
    hide Turn, Xor, Lead;
    if u == [] {
      XorCancels(x);
      ClearOfZero(16);
    } else {
      var x', y' := Feed(x, u[0]), Feed(y, v[0]);
      MeetingStates(x', y', u[1..], v[1..]);
      var d := XorWord(XorWord(x, Lead(u[0])), XorWord(y, Lead(v[0])));
      TurnIsLinear(XorWord(x, Lead(u[0])), XorWord(y, Lead(v[0])));
      EvenTurn(d);
      XorPairs(x, Lead(u[0]), y, Lead(v[0]));
      LeadsApart(XorWord(x, y), d, u[0], v[0], 16 - |u|);
    }
  }

  lemma LeadsApart(e: word, d: word, p: bool, q: bool, n: nat)
    requires d == Xor(e, Xor(Lead(p), Lead(q))) && d < TOP && Clear(d, n) && n <= 15
    ensures Clear(e, n) && e == if p != q then d + TOP else d
  {
    hide Xor;
    WordPower();
    XorCancels(TOP);
    XorZero(TOP);
    XorZero(e);
    XorZero(0);
    if p != q {
      if e < TOP { LeadSplits(e); } else { HighBitsMeet(e - TOP, 0); }
      ClearAbove(d, 15, n);
      LeadSplits(d);
      XorRegroups(e, TOP, TOP);
      XorRegroups(d, TOP, TOP);
    }
  }

  /** From one state, two different strings of at most sixteen bits lead to different states. */
  lemma {:induction false} WindowTells(x: word, u: seq<bool>, v: seq<bool>)
    requires |u| == |v| <= 16 && FeedAll(x, u) == FeedAll(x, v)
    ensures u == v
    decreases u
  {
    hide Turn, Xor, Lead;
    if u != [] {
      var x', y' := Feed(x, u[0]), Feed(x, v[0]);
      MeetingStates(x', y', u[1..], v[1..]);
      var d := XorWord(XorWord(x, Lead(u[0])), XorWord(x, Lead(v[0])));
      TurnIsLinear(XorWord(x, Lead(u[0])), XorWord(x, Lead(v[0])));
      EvenTurn(d);
      XorPairs(x, Lead(u[0]), x, Lead(v[0]));
      XorCancels(x);
      LeadsApart(0, d, u[0], v[0], 16 - |u|);
      WindowTells(x', u[1..], v[1..]);
    }
  }

  // ---------------------------------------------------------------- the guarantee

  predicate AgreeOutside(a: seq<bool>, b: seq<bool>, from: nat) {
    |a| == |b| && forall i | 0 <= i < |a| && (i < from || from + 16 <= i) :: a[i] == b[i]
  }

  /** Streams that agree outside sixteen bits and have one CRC are one stream. */
  lemma StreamBurst(a: seq<bool>, b: seq<bool>, from: nat)
    requires AgreeOutside(a, b, from) && FeedAll(0, a) == FeedAll(0, b)
    ensures a == b
  {
    hide Feed;
    var lo := if from <= |a| then from else |a|;
    var hi := if from + 16 <= |a| then from + 16 else |a|;
    assert a[..lo] == b[..lo] && a[hi..] == b[hi..];
    assert a == a[..lo] + (a[lo..hi] + a[hi..]) && b == b[..lo] + (b[lo..hi] + b[hi..]);
    var x := FeedAll(0, a[..lo]);
    FeedMore(0, a[..lo], a[lo..hi] + a[hi..]);
    FeedMore(0, b[..lo], b[lo..hi] + b[hi..]);
    FeedMore(x, a[lo..hi], a[hi..]);
    FeedMore(x, b[lo..hi], b[hi..]);
    FeedAllTells(FeedAll(x, a[lo..hi]), FeedAll(x, b[lo..hi]), a[hi..]);
    WindowTells(x, a[lo..hi], b[lo..hi]);
  }

  /** A stream gives back its bytes. */
  lemma {:induction false} TopBitsTell(v: word, w: word, n: nat)
    requires n <= 16 && Clear(v, 16 - n) && Clear(w, 16 - n) && TopBits(v, n) == TopBits(w, n)
    ensures v == w
    decreases n
  {
    hide Clear, TopBits;
    WordPower();
    if n == 0 {
      ClearIsZero(v, 16);
      ClearIsZero(w, 16);
    } else {
      NextClear(v, 16 - n);
      NextClear(w, 16 - n);
      TopBitsSplit(v, n);
      TopBitsSplit(w, n);
      TopBitsTell(v % TOP * 2, w % TOP * 2, n - 1);
    }
  }

  lemma TopBitsSplit(v: word, n: nat)
    requires 0 < n
    ensures TopBits(v, n)[0] == (TOP <= v) && TopBits(v, n)[1..] == TopBits(v % TOP * 2, n - 1)
  {
  }

  lemma {:induction false} StreamTells(a: seq<byte>, b: seq<byte>)
    requires |a| == |b| && Stream(a) == Stream(b)
    ensures a == b
  {
    hide TopBits;
    if a != [] {
      var n := |a| - 1;
      assert Stream(a)[..8 * n] == Stream(a[..n]) && Stream(b)[..8 * n] == Stream(b[..n]);
      assert Stream(a)[8 * n..] == TopBits(High(a[n]), 8) && Stream(b)[8 * n..] == TopBits(High(b[n]), 8);
      StreamTells(a[..n], b[..n]);
      ClearHigh(a[n]);
      ClearHigh(b[n]);
      TopBitsTell(High(a[n]), High(b[n]), 8);
      assert a == a[..n] + [a[n]] && b == b[..n] + [b[n]];
    }
  }

  /** Every change within sixteen consecutive bits of a string changes its CRC. */
  lemma BurstsAreCaught(a: seq<byte>, b: seq<byte>, from: nat)
    requires |a| == |b| && a != b && AgreeOutside(Stream(a), Stream(b), from)
    ensures BitwiseCrc(a) != BitwiseCrc(b)
  {
    hide Stream, FeedAll, BitwiseCrc;
    CrcIsFed(a);
    CrcIsFed(b);
    if BitwiseCrc(a) == BitwiseCrc(b) {
      StreamBurst(Stream(a), Stream(b), from);
      StreamTells(a, b);
    }
  }
}
