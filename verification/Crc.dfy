// The CRC of Acorn tape blocks: the table-driven loop computes the bitwise algorithm, and no error confined to
// sixteen consecutive bits escapes it.

module Crc {
  import opened Bits

  type word = x: int | 0 <= x < 0x10000

  // ---------------------------------------------------------------- exclusive or

  lemma {:induction false} XorSwaps(a: nat, b: nat)
    ensures Xor(a, b) == Xor(b, a)
  {
    if a != 0 && b != 0 {
      XorSwaps(a / 2, b / 2);
    }
  }

  lemma XorParts(a: nat, b: nat)
    ensures Xor(a, b) / 2 == Xor(a / 2, b / 2) && (Xor(a, b) % 2 == 1) == (a % 2 != b % 2)
  {
  }

  lemma {:induction false} XorRegroups(a: nat, b: nat, c: nat)
    ensures Xor(Xor(a, b), c) == Xor(a, Xor(b, c))
    decreases a + b + c
  {
    if a + b + c > 0 {
      XorParts(a, b);
      XorParts(b, c);
      XorParts(Xor(a, b), c);
      XorParts(a, Xor(b, c));
      XorRegroups(a / 2, b / 2, c / 2);
      var l, r := Xor(Xor(a, b), c), Xor(a, Xor(b, c));
      hide Xor;
      assert l / 2 == r / 2 && l % 2 == r % 2;
    }
  }

  lemma {:induction false} XorCancels(a: nat)
    ensures Xor(a, a) == 0
  {
    if a != 0 {
      XorCancels(a / 2);
    }
  }

  /** Equal results from one operand come of equal operands. */
  lemma XorTells(a: nat, b: nat, c: nat)
    requires Xor(a, c) == Xor(b, c)
    ensures a == b
  {
    XorRegroups(a, c, c);
    XorRegroups(b, c, c);
    XorCancels(c);
  }

  function XorWord(a: word, b: word): (r: word)
    ensures r == Xor(a, b)
  {
    WordPower();
    BitwiseFits(a, b, 16);
    Xor(a, b)
  }

  lemma WordPower()
    ensures Power(16) == 0x10000 && Power(15) == 0x8000
  {
    assert Power(4) == 16;
    assert Power(8) == 256;
    assert Power(12) == 4096;
  }

  /** The exchange of the pairs of a sum of two exclusive ors. */
  lemma XorPairs(a: nat, b: nat, c: nat, d: nat)
    ensures Xor(Xor(a, b), Xor(c, d)) == Xor(Xor(a, c), Xor(b, d))
  {
    hide Xor;
    XorRegroups(a, b, Xor(c, d));
    XorRegroups(b, c, d);
    XorSwaps(b, c);
    XorRegroups(c, b, d);
    XorRegroups(a, c, Xor(b, d));
  }

  // ---------------------------------------------------------------- the bitwise algorithm

  const TOP: word := 0x8000

  /** One turn of its loop: a bit is carried round from the top. */
  function Turn(x: word): word {
    if TOP <= x then (XorWord(x, 0x0810) * 2 + 1) % 0x10000 else 2 * x
  }

  function Turns(x: word, n: nat): word
    decreases n
  {
    if n == 0 then x else Turns(Turn(x), n - 1)
  }

  function WithByte(x: word, c: byte): word {
    Turns(XorWord(c * 256, x), 8)
  }

  function BitwiseCrc(data: seq<byte>): word {
    if data == [] then 0 else WithByte(BitwiseCrc(data[..|data| - 1]), data[|data| - 1])
  }

  /** What a turn does to the fifteen bits below the top one. */
  lemma TurnOfTop(r: nat)
    requires r < 0x8000
    ensures Turn(0x8000 + r) == 2 * Xor(r, 0x0810) + 1 && Xor(r, 0x0810) < 0x8000
  {
    WordPower();
    BitwiseFits(r, 0x0810, 15);
    TopBitStays(r, 0x0810);
  }

  lemma TopBitStays(r: nat, s: nat)
    requires r < 0x8000 && s < 0x8000
    ensures Xor(0x8000 + r, s) == 0x8000 + Xor(r, s)
  {
    WordPower();
    HighBitStays(r, s, 15);
  }

  lemma {:induction false} HighBitStays(r: nat, s: nat, n: nat)
    requires r < Power(n) && s < Power(n)
    ensures Xor(Power(n) + r, s) == Power(n) + Xor(r, s)
  {
    if n > 0 && s != 0 {
      HighBitStays(r / 2, s / 2, n - 1);
      XorParts(r, s);
      XorParts(Power(n) + r, s);
      var l, t := Xor(Power(n) + r, s), Xor(r, s);
      hide Xor;
      assert (Power(n) + r) / 2 == Power(n - 1) + r / 2;
      assert l / 2 == Power(n - 1) + t / 2 && l % 2 == t % 2;
    }
  }

  lemma HighBitsMeet(r: nat, s: nat)
    requires r < 0x8000 && s < 0x8000
    ensures Xor(0x8000 + r, 0x8000 + s) == Xor(r, s)
  {
    hide Xor;
    TopBitStays(r, s);
    XorSwaps(0x8000 + r, 0x8000 + s);
    TopBitStays(0, s);
    TopBitStays(0, r);
    XorZero(r);
    XorZero(s);
    XorSwaps(0x8000, r);
    XorSwaps(0x8000, s);
    XorPairs(0x8000, r, 0x8000, s);
    XorCancels(0x8000);
    XorZero(Xor(r, s));
  }

  lemma XorZero(a: nat)
    ensures Xor(a, 0) == a && Xor(0, a) == a
  {
  }

  /** Exclusive or, one bit after the rest. */
  lemma XorAppends(a: nat, b: nat, p: nat, q: nat)
    requires p < 2 && q < 2
    ensures Xor(2 * a + p, 2 * b + q) == 2 * Xor(a, b) + if p != q then 1 else 0
  {
    hide Xor;
    XorParts(2 * a + p, 2 * b + q);
    Appended(a, p);
    Appended(b, q);
  }

  lemma Appended(a: nat, p: nat)
    requires p < 2
    ensures (2 * a + p) / 2 == a && (2 * a + p) % 2 == p
  {
  }

  lemma Doubles(a: nat, b: nat)
    ensures Xor(2 * a, 2 * b) == 2 * Xor(a, b) && Xor(2 * a + 1, 2 * b) == 2 * Xor(a, b) + 1
    ensures Xor(2 * a, 2 * b + 1) == 2 * Xor(a, b) + 1 && Xor(2 * a + 1, 2 * b + 1) == 2 * Xor(a, b)
  {
    hide Xor;
    XorAppends(a, b, 0, 0);
    XorAppends(a, b, 1, 0);
    XorAppends(a, b, 0, 1);
    XorAppends(a, b, 1, 1);
  }

  /** A turn is linear. */
  lemma TurnIsLinear(a: word, b: word)
    ensures Turn(XorWord(a, b)) == XorWord(Turn(a), Turn(b))
  {
    hide Xor, Turn;
    if a < TOP && b < TOP {
      LowTurn(a);
      LowTurn(b);
      XorLow(a, b);
      LowTurn(XorWord(a, b));
      Doubles(a, b);
    } else if a < TOP {
      TopAndLow(b, a);
      XorSwaps(a, b);
      XorSwaps(Turn(a), Turn(b));
    } else if b < TOP {
      TopAndLow(a, b);
    } else {
      var r, s := a - TOP, b - TOP;
      TurnOfTop(r);
      TurnOfTop(s);
      HighBitsMeet(r, s);
      XorLow(r, s);
      LowTurn(XorWord(a, b));
      Doubles(Xor(r, 0x0810), Xor(s, 0x0810));
      XorPairs(r, 0x0810, s, 0x0810);
      XorCancels(0x0810);
      XorZero(Xor(r, s));
    }
  }

  lemma LowTurn(x: word)
    requires x < TOP
    ensures Turn(x) == 2 * x
  {
  }

  lemma XorLow(a: nat, b: nat)
    requires a < TOP && b < TOP
    ensures Xor(a, b) < TOP
  {
    WordPower();
    BitwiseFits(a, b, 15);
  }

  lemma TopAndLow(a: word, b: word)
    requires b < TOP <= a
    ensures Turn(XorWord(a, b)) == XorWord(Turn(a), Turn(b))
  {
    hide Xor, Turn;
    var r := a - TOP;
    TurnOfTop(r);
    LowTurn(b);
    TopBitStays(r, b);
    XorLow(r, b);
    TurnOfTop(Xor(r, b));
    Doubles(Xor(r, 0x0810), b);
    XorRegroups(r, b, 0x0810);
    XorSwaps(b, 0x0810);
    XorRegroups(r, 0x0810, b);
  }

  lemma {:induction false} TurnsAreLinear(a: word, b: word, n: nat)
    ensures Turns(XorWord(a, b), n) == XorWord(Turns(a, n), Turns(b, n))
    decreases n
  {
    hide Turn, XorWord;
    if n > 0 {
      TurnIsLinear(a, b);
      TurnsAreLinear(Turn(a), Turn(b), n - 1);
    }
  }

  lemma {:induction false} TurnLater(x: word, n: nat)
    ensures Turns(Turn(x), n) == Turn(Turns(x, n))
    decreases n
  {
    hide Turn;
    if n > 0 {
      TurnLater(Turn(x), n - 1);
    }
  }

  // ---------------------------------------------------------------- the table

  function Row0(l: nat): word {
    if l == 0 then 0x0000 else if l == 1 then 0x1021 else if l == 2 then 0x2042 else if l == 3 then 0x3063 else
    if l == 4 then 0x4084 else if l == 5 then 0x50A5 else if l == 6 then 0x60C6 else if l == 7 then 0x70E7 else
    if l == 8 then 0x8108 else if l == 9 then 0x9129 else if l == 10 then 0xA14A else if l == 11 then 0xB16B else
    if l == 12 then 0xC18C else if l == 13 then 0xD1AD else if l == 14 then 0xE1CE else 0xF1EF
  }

  function Row1(l: nat): word {
    if l == 0 then 0x1231 else if l == 1 then 0x0210 else if l == 2 then 0x3273 else if l == 3 then 0x2252 else
    if l == 4 then 0x52B5 else if l == 5 then 0x4294 else if l == 6 then 0x72F7 else if l == 7 then 0x62D6 else
    if l == 8 then 0x9339 else if l == 9 then 0x8318 else if l == 10 then 0xB37B else if l == 11 then 0xA35A else
    if l == 12 then 0xD3BD else if l == 13 then 0xC39C else if l == 14 then 0xF3FF else 0xE3DE
  }

  function Row2(l: nat): word {
    if l == 0 then 0x2462 else if l == 1 then 0x3443 else if l == 2 then 0x0420 else if l == 3 then 0x1401 else
    if l == 4 then 0x64E6 else if l == 5 then 0x74C7 else if l == 6 then 0x44A4 else if l == 7 then 0x5485 else
    if l == 8 then 0xA56A else if l == 9 then 0xB54B else if l == 10 then 0x8528 else if l == 11 then 0x9509 else
    if l == 12 then 0xE5EE else if l == 13 then 0xF5CF else if l == 14 then 0xC5AC else 0xD58D
  }

  function Row3(l: nat): word {
    if l == 0 then 0x3653 else if l == 1 then 0x2672 else if l == 2 then 0x1611 else if l == 3 then 0x0630 else
    if l == 4 then 0x76D7 else if l == 5 then 0x66F6 else if l == 6 then 0x5695 else if l == 7 then 0x46B4 else
    if l == 8 then 0xB75B else if l == 9 then 0xA77A else if l == 10 then 0x9719 else if l == 11 then 0x8738 else
    if l == 12 then 0xF7DF else if l == 13 then 0xE7FE else if l == 14 then 0xD79D else 0xC7BC
  }

  function Row4(l: nat): word {
    if l == 0 then 0x48C4 else if l == 1 then 0x58E5 else if l == 2 then 0x6886 else if l == 3 then 0x78A7 else
    if l == 4 then 0x0840 else if l == 5 then 0x1861 else if l == 6 then 0x2802 else if l == 7 then 0x3823 else
    if l == 8 then 0xC9CC else if l == 9 then 0xD9ED else if l == 10 then 0xE98E else if l == 11 then 0xF9AF else
    if l == 12 then 0x8948 else if l == 13 then 0x9969 else if l == 14 then 0xA90A else 0xB92B
  }

  function Row5(l: nat): word {
    if l == 0 then 0x5AF5 else if l == 1 then 0x4AD4 else if l == 2 then 0x7AB7 else if l == 3 then 0x6A96 else
    if l == 4 then 0x1A71 else if l == 5 then 0x0A50 else if l == 6 then 0x3A33 else if l == 7 then 0x2A12 else
    if l == 8 then 0xDBFD else if l == 9 then 0xCBDC else if l == 10 then 0xFBBF else if l == 11 then 0xEB9E else
    if l == 12 then 0x9B79 else if l == 13 then 0x8B58 else if l == 14 then 0xBB3B else 0xAB1A
  }

  function Row6(l: nat): word {
    if l == 0 then 0x6CA6 else if l == 1 then 0x7C87 else if l == 2 then 0x4CE4 else if l == 3 then 0x5CC5 else
    if l == 4 then 0x2C22 else if l == 5 then 0x3C03 else if l == 6 then 0x0C60 else if l == 7 then 0x1C41 else
    if l == 8 then 0xEDAE else if l == 9 then 0xFD8F else if l == 10 then 0xCDEC else if l == 11 then 0xDDCD else
    if l == 12 then 0xAD2A else if l == 13 then 0xBD0B else if l == 14 then 0x8D68 else 0x9D49
  }

  function Row7(l: nat): word {
    if l == 0 then 0x7E97 else if l == 1 then 0x6EB6 else if l == 2 then 0x5ED5 else if l == 3 then 0x4EF4 else
    if l == 4 then 0x3E13 else if l == 5 then 0x2E32 else if l == 6 then 0x1E51 else if l == 7 then 0x0E70 else
    if l == 8 then 0xFF9F else if l == 9 then 0xEFBE else if l == 10 then 0xDFDD else if l == 11 then 0xCFFC else
    if l == 12 then 0xBF1B else if l == 13 then 0xAF3A else if l == 14 then 0x9F59 else 0x8F78
  }

  function Row8(l: nat): word {
    if l == 0 then 0x9188 else if l == 1 then 0x81A9 else if l == 2 then 0xB1CA else if l == 3 then 0xA1EB else
    if l == 4 then 0xD10C else if l == 5 then 0xC12D else if l == 6 then 0xF14E else if l == 7 then 0xE16F else
    if l == 8 then 0x1080 else if l == 9 then 0x00A1 else if l == 10 then 0x30C2 else if l == 11 then 0x20E3 else
    if l == 12 then 0x5004 else if l == 13 then 0x4025 else if l == 14 then 0x7046 else 0x6067
  }

  function Row9(l: nat): word {
    if l == 0 then 0x83B9 else if l == 1 then 0x9398 else if l == 2 then 0xA3FB else if l == 3 then 0xB3DA else
    if l == 4 then 0xC33D else if l == 5 then 0xD31C else if l == 6 then 0xE37F else if l == 7 then 0xF35E else
    if l == 8 then 0x02B1 else if l == 9 then 0x1290 else if l == 10 then 0x22F3 else if l == 11 then 0x32D2 else
    if l == 12 then 0x4235 else if l == 13 then 0x5214 else if l == 14 then 0x6277 else 0x7256
  }

  function RowA(l: nat): word {
    if l == 0 then 0xB5EA else if l == 1 then 0xA5CB else if l == 2 then 0x95A8 else if l == 3 then 0x8589 else
    if l == 4 then 0xF56E else if l == 5 then 0xE54F else if l == 6 then 0xD52C else if l == 7 then 0xC50D else
    if l == 8 then 0x34E2 else if l == 9 then 0x24C3 else if l == 10 then 0x14A0 else if l == 11 then 0x0481 else
    if l == 12 then 0x7466 else if l == 13 then 0x6447 else if l == 14 then 0x5424 else 0x4405
  }

  function RowB(l: nat): word {
    if l == 0 then 0xA7DB else if l == 1 then 0xB7FA else if l == 2 then 0x8799 else if l == 3 then 0x97B8 else
    if l == 4 then 0xE75F else if l == 5 then 0xF77E else if l == 6 then 0xC71D else if l == 7 then 0xD73C else
    if l == 8 then 0x26D3 else if l == 9 then 0x36F2 else if l == 10 then 0x0691 else if l == 11 then 0x16B0 else
    if l == 12 then 0x6657 else if l == 13 then 0x7676 else if l == 14 then 0x4615 else 0x5634
  }

  function RowC(l: nat): word {
    if l == 0 then 0xD94C else if l == 1 then 0xC96D else if l == 2 then 0xF90E else if l == 3 then 0xE92F else
    if l == 4 then 0x99C8 else if l == 5 then 0x89E9 else if l == 6 then 0xB98A else if l == 7 then 0xA9AB else
    if l == 8 then 0x5844 else if l == 9 then 0x4865 else if l == 10 then 0x7806 else if l == 11 then 0x6827 else
    if l == 12 then 0x18C0 else if l == 13 then 0x08E1 else if l == 14 then 0x3882 else 0x28A3
  }

  function RowD(l: nat): word {
    if l == 0 then 0xCB7D else if l == 1 then 0xDB5C else if l == 2 then 0xEB3F else if l == 3 then 0xFB1E else
    if l == 4 then 0x8BF9 else if l == 5 then 0x9BD8 else if l == 6 then 0xABBB else if l == 7 then 0xBB9A else
    if l == 8 then 0x4A75 else if l == 9 then 0x5A54 else if l == 10 then 0x6A37 else if l == 11 then 0x7A16 else
    if l == 12 then 0x0AF1 else if l == 13 then 0x1AD0 else if l == 14 then 0x2AB3 else 0x3A92
  }

  function RowE(l: nat): word {
    if l == 0 then 0xFD2E else if l == 1 then 0xED0F else if l == 2 then 0xDD6C else if l == 3 then 0xCD4D else
    if l == 4 then 0xBDAA else if l == 5 then 0xAD8B else if l == 6 then 0x9DE8 else if l == 7 then 0x8DC9 else
    if l == 8 then 0x7C26 else if l == 9 then 0x6C07 else if l == 10 then 0x5C64 else if l == 11 then 0x4C45 else
    if l == 12 then 0x3CA2 else if l == 13 then 0x2C83 else if l == 14 then 0x1CE0 else 0x0CC1
  }

  function RowF(l: nat): word {
    if l == 0 then 0xEF1F else if l == 1 then 0xFF3E else if l == 2 then 0xCF5D else if l == 3 then 0xDF7C else
    if l == 4 then 0xAF9B else if l == 5 then 0xBFBA else if l == 6 then 0x8FD9 else if l == 7 then 0x9FF8 else
    if l == 8 then 0x6E17 else if l == 9 then 0x7E36 else if l == 10 then 0x4E55 else if l == 11 then 0x5E74 else
    if l == 12 then 0x2E93 else if l == 13 then 0x3EB2 else if l == 14 then 0x0ED1 else 0x1EF0
  }

  function Table(c: byte): word {
    if c < 0x10 then Row0(c)
    else if c < 0x20 then Row1(c - 0x10)
    else if c < 0x30 then Row2(c - 0x20)
    else if c < 0x40 then Row3(c - 0x30)
    else if c < 0x50 then Row4(c - 0x40)
    else if c < 0x60 then Row5(c - 0x50)
    else if c < 0x70 then Row6(c - 0x60)
    else if c < 0x80 then Row7(c - 0x70)
    else if c < 0x90 then Row8(c - 0x80)
    else if c < 0xA0 then Row9(c - 0x90)
    else if c < 0xB0 then RowA(c - 0xA0)
    else if c < 0xC0 then RowB(c - 0xB0)
    else if c < 0xD0 then RowC(c - 0xC0)
    else if c < 0xE0 then RowD(c - 0xD0)
    else if c < 0xF0 then RowE(c - 0xE0)
    else RowF(c - 0xF0)
  }

  /** Turning one bit over. */
  function Flip(x: nat, weight: nat): nat
    requires 0 < weight
  {
    if x / weight % 2 == 1 && weight <= x then x - weight else x + weight
  }

  lemma {:induction false} BitIsFlipped(x: nat, i: nat)
    ensures Bit(x, i) ==> Power(i) <= x
    ensures Xor(x, Power(i)) == if Bit(x, i) then x - Power(i) else x + Power(i)
  {
    if i > 0 {
      BitIsFlipped(x / 2, i - 1);
      XorParts(x, Power(i));
      hide Xor;
    }
  }

  lemma BitDown(x: nat, i: nat)
    requires 0 < i
    ensures Bit(x, i) == Bit(x / 2, i - 1)
  {
  }

  lemma BottomOf(x: nat)
    ensures Bit(x, 0) == (x % 2 == 1)
  {
  }

  lemma FourDown(x: nat, i: nat)
    requires 4 <= i
    ensures Bit(x, i) == Bit(x / 16, i - 4)
  {
    hide Bit;
    BitDown(x, i);
    BitDown(x / 2, i - 1);
    BitDown(x / 4, i - 2);
    BitDown(x / 8, i - 3);
    assert x / 2 / 2 == x / 4 && x / 4 / 2 == x / 8 && x / 8 / 2 == x / 16;
  }

  lemma LowBits(x: nat)
    ensures Bit(x, 4) == (x / 0x10 % 2 == 1) && Bit(x, 5) == (x / 0x20 % 2 == 1)
  {
    hide Bit;
    FourDown(x, 4);
    BottomOf(x / 16);
    FourDown(x, 5);
    BitDown(x / 16, 1);
    BottomOf(x / 32);
    assert x / 16 / 2 == x / 32;
  }

  lemma HighBits(x: nat)
    ensures Bit(x, 11) == (x / 0x800 % 2 == 1) && Bit(x, 12) == (x / 0x1000 % 2 == 1)
  {
    hide Bit;
    BitDown(x, 12);
    BitDown(x, 11);
    BitDown(x / 2, 11);
    BitDown(x / 2, 10);
    BitDown(x / 4, 9);
    BitDown(x / 4, 10);
    FourDown(x / 8, 8);
    FourDown(x / 128, 4);
    BottomOf(x / 2048);
    FourDown(x / 8, 9);
    FourDown(x / 128, 5);
    BitDown(x / 2048, 1);
    BottomOf(x / 4096);
    Eighths(x);
  }

  lemma Eighths(x: nat)
    ensures x / 2 / 2 == x / 4 && x / 4 / 2 == x / 8 && x / 8 / 16 == x / 128
    ensures x / 128 / 16 == x / 2048 && x / 2048 / 2 == x / 4096
  {
  }

  /** Exclusive or with one of the four bits that the polynomial has is a flip of it. */
  lemma FlipIsXor(x: nat, i: nat)
    requires i in {4, 5, 11, 12}
    ensures 0 < Power(i) && Xor(x, Power(i)) == Flip(x, Power(i))
  {
    SmallPowers();
    BitIsFlipped(x, i);
    LowBits(x);
    HighBits(x);
    hide Bit, Xor;
  }

  lemma SmallPowers()
    ensures Power(4) == 0x10 && Power(5) == 0x20 && Power(11) == 0x800 && Power(12) == 0x1000
  {
    assert Power(2) == 4;
    assert Power(8) == 0x100;
    assert Power(9) == 0x200;
  }

  lemma XorOfSum(x: nat, a: nat, b: nat)
    requires Xor(a, b) == a + b
    ensures Xor(x, a + b) == Xor(Xor(x, a), b)
  {
    XorRegroups(x, a, b);
  }

  /** A turn in terms of single bits. */
  lemma TurnByBits(r: nat)
    requires r < 0x8000
    ensures Turn(0x8000 + r) == 2 * Flip(Flip(r, 0x800), 0x10) + 1
  {
    TurnOfTop(r);
    SmallPowers();
    FlipIsXor(r, 11);
    FlipIsXor(Flip(r, 0x800), 4);
    FlipIsXor(0x800, 4);
    XorOfSum(r, 0x800, 0x10);
  }

  /** The exclusive or of an even number and 1021, in terms of single bits. */
  lemma OddByBits(x: nat)
    requires x % 2 == 0
    ensures Xor(x, 0x1021) == Flip(Flip(x, 0x1000), 0x20) + 1
  {
    SmallPowers();
    FlipIsXor(x, 12);
    FlipIsXor(Flip(x, 0x1000), 5);
    FlipIsXor(0x1000, 5);
    XorOfSum(x, 0x1000, 0x20);
    Doubles(x / 2, 0x810);
    XorParts(x, 0x1020);
  }

  /** The entries of twice an index are a turn, and that turn with 1021, of the entry of the index. */
  predicate Follows(entry: word, even: word, odd: word) {
    even == (if entry < TOP then 2 * entry else 2 * Flip(Flip(entry - TOP, 0x800), 0x10) + 1) &&
    odd == (if entry < TOP then Flip(Flip(even, 0x1000), 0x20) + 1 else Flip(Flip(even - 1, 0x1000), 0x20))
  }

  lemma RowFollows0(l: nat)
    requires l < 16
    ensures if l < 8 then Follows(Row0(l), Row0(2 * l), Row0(2 * l + 1))
            else Follows(Row0(l), Row1(2 * l - 16), Row1(2 * l - 15))
  {
  }

  lemma RowFollows1(l: nat)
    requires l < 16
    ensures if l < 8 then Follows(Row1(l), Row2(2 * l), Row2(2 * l + 1))
            else Follows(Row1(l), Row3(2 * l - 16), Row3(2 * l - 15))
  {
  }

  lemma RowFollows2(l: nat)
    requires l < 16
    ensures if l < 8 then Follows(Row2(l), Row4(2 * l), Row4(2 * l + 1))
            else Follows(Row2(l), Row5(2 * l - 16), Row5(2 * l - 15))
  {
  }

  lemma RowFollows3(l: nat)
    requires l < 16
    ensures if l < 8 then Follows(Row3(l), Row6(2 * l), Row6(2 * l + 1))
            else Follows(Row3(l), Row7(2 * l - 16), Row7(2 * l - 15))
  {
  }

  lemma RowFollows4(l: nat)
    requires l < 16
    ensures if l < 8 then Follows(Row4(l), Row8(2 * l), Row8(2 * l + 1))
            else Follows(Row4(l), Row9(2 * l - 16), Row9(2 * l - 15))
  {
  }

  lemma RowFollows5(l: nat)
    requires l < 16
    ensures if l < 8 then Follows(Row5(l), RowA(2 * l), RowA(2 * l + 1))
            else Follows(Row5(l), RowB(2 * l - 16), RowB(2 * l - 15))
  {
  }

  lemma RowFollows6(l: nat)
    requires l < 16
    ensures if l < 8 then Follows(Row6(l), RowC(2 * l), RowC(2 * l + 1))
            else Follows(Row6(l), RowD(2 * l - 16), RowD(2 * l - 15))
  {
  }

  lemma RowFollows7(l: nat)
    requires l < 16
    ensures if l < 8 then Follows(Row7(l), RowE(2 * l), RowE(2 * l + 1))
            else Follows(Row7(l), RowF(2 * l - 16), RowF(2 * l - 15))
  {
  }

  lemma TableFollows(c: byte)
    requires c < 128
    ensures Follows(Table(c), Table(2 * c), Table(2 * c + 1))
  {
    hide Follows, Row0, Row1, Row2, Row3, Row4, Row5, Row6, Row7, Row8, Row9, RowA, RowB, RowC, RowD, RowE, RowF;
    var l := c % 16;
    assert c == 16 * (c / 16) + l;
    if c < 0x10 { RowFollows0(l); }
    else if c < 0x20 { RowFollows1(l); }
    else if c < 0x30 { RowFollows2(l); }
    else if c < 0x40 { RowFollows3(l); }
    else if c < 0x50 { RowFollows4(l); }
    else if c < 0x60 { RowFollows5(l); }
    else if c < 0x70 { RowFollows6(l); }
    else { RowFollows7(l); }
  }

  lemma FollowsIs(entry: word, even: word, odd: word)
    requires Follows(entry, even, odd)
    ensures even == Turn(entry) && odd == Xor(even, 0x1021)
  {
    hide Flip, Xor, Turn;
    if entry < TOP {
      LowTurn(entry);
      OddByBits(even);
    } else {
      TurnByBits(entry - TOP);
      OddByBits(even - 1);
      OneLess(even - 1);
    }
  }

  lemma OneLess(x: nat)
    requires x % 2 == 0
    ensures Xor(x + 1, 0x1021) + 1 == Xor(x, 0x1021)
  {
    hide Xor;
    Doubles(x / 2, 0x810);
    assert x == 2 * (x / 2);
  }

  // ---------------------------------------------------------------- the table computes the algorithm

  lemma {:induction false} TurnsOfZero(n: nat)
    ensures Turns(0, n) == 0
    decreases n
  {
    if n > 0 {
      TurnsOfZero(n - 1);
    }
  }

  lemma TurnsOfLow(x: byte)
    ensures Turns(x, 8) == x * 256
  {
    hide Turn;
    LowTurn(x);
    LowTurn(2 * x);
    LowTurn(4 * x);
    LowTurn(8 * x);
    LowTurn(16 * x);
    LowTurn(32 * x);
    LowTurn(64 * x);
    LowTurn(128 * x);
    assert Turns(x, 8) == Turns(2 * x, 7) == Turns(4 * x, 6) == Turns(8 * x, 5) == Turns(16 * x, 4);
    assert Turns(16 * x, 4) == Turns(32 * x, 3) == Turns(64 * x, 2) == Turns(128 * x, 1);
  }

  lemma EntryOfOne()
    ensures Turns(0x100, 8) == 0x1021
  {
    assert Turns(0x100, 8) == Turns(0x200, 7) == Turns(0x400, 6) == Turns(0x800, 5) == Turns(0x1000, 4);
    assert Turns(0x1000, 4) == Turns(0x2000, 3) == Turns(0x4000, 2) == Turns(0x8000, 1);
    TurnOfTop(0);
  }

  /** The entry of twice an index is a turn of the index's. */
  lemma EvenEntry(c: byte)
    requires c < 128
    ensures Turns(2 * c * 256, 8) == Turn(Turns(c * 256, 8))
  {
    hide Turns;
    LowTurn(c * 256);
    TurnLater(c * 256, 8);
  }

  lemma OddEntry(c: byte)
    requires c < 128
    ensures Turns((2 * c + 1) * 256, 8) == Xor(Turns(2 * c * 256, 8), 0x1021)
  {
    hide Turns, Xor;
    EntryOfOne();
    ShiftedOne(c);
    TurnsAreLinear(2 * c * 256, 0x100, 8);
  }

  lemma ShiftedOne(c: byte)
    ensures Xor(2 * c * 256, 0x100) == (2 * c + 1) * 256
  {
    hide Xor;
    XorZero(c);
    Doubles(c, 0);
    XorSwaps(2 * c, 1);
    Doubles(2 * c, 1);
    Doubles(4 * c, 2);
    Doubles(8 * c, 4);
    Doubles(16 * c, 8);
    Doubles(32 * c, 16);
    Doubles(64 * c, 32);
    Doubles(128 * c, 64);
    Doubles(256 * c, 128);
  }

  /** Each entry of the table is eight turns of its index as a high byte. */
  lemma {:induction false} EntryIsTurns(c: byte)
    ensures Table(c) == Turns(c * 256, 8)
    decreases c
  {
    hide Table, Turns, Turn, Xor, Follows;
    FirstEntries();
    if c >= 2 {
      var k := c / 2;
      EntryIsTurns(k);
      TableFollows(k);
      FollowsIs(Table(k), Table(2 * k), Table(2 * k + 1));
      EvenEntry(k);
      OddEntry(k);
    }
  }

  lemma FirstEntries()
    ensures Table(0) == Turns(0, 8) && Table(1) == Turns(0x100, 8)
  {
    hide Turns;
    TurnsOfZero(8);
    EntryOfOne();
  }

  /** One byte by the table: the entry of the byte with the high byte, and the low byte shifted up. */
  function ByTable(x: word, c: byte): word {
    XorWord(Table(HighWith(x, c)), x % 256 * 256)
  }

  function HighWith(x: word, c: byte): byte {
    BytePower();
    BitwiseFits(x / 256, c, 8);
    Xor(x / 256, c)
  }

  lemma BytePower()
    ensures Power(8) == 256
  {
    assert Power(4) == 16;
  }

  lemma XorShifted(a: nat, b: nat)
    ensures Xor(a * 256, b * 256) == Xor(a, b) * 256
  {
    hide Xor;
    Doubles(a, b);
    Doubles(2 * a, 2 * b);
    Doubles(4 * a, 4 * b);
    Doubles(8 * a, 8 * b);
    Doubles(16 * a, 16 * b);
    Doubles(32 * a, 32 * b);
    Doubles(64 * a, 64 * b);
    Doubles(128 * a, 128 * b);
  }

  lemma HighAndLow(h: byte, l: byte)
    ensures Xor(h * 256, l) == h * 256 + l
  {
    BytePower();
    XorIsSum(h, l, 8);
    LeftByte(h);
  }

  lemma {:induction false} XorIsSum(h: nat, b: nat, n: nat)
    requires b < Power(n)
    ensures Xor(Left(h, n), b) == Left(h, n) + b
  {
    if n > 0 && Left(h, n) != 0 && b != 0 {
      XorIsSum(h, b / 2, n - 1);
    }
  }

  /** The table's step is the algorithm's eight turns. */
  lemma StepByTable(x: word, c: byte)
    ensures ByTable(x, c) == WithByte(x, c)
  {
    hide Xor, Turns, Table;
    var h, l := x / 256, x % 256;
    HighAndLow(h, l);
    XorRegroups(c * 256, h * 256, l);
    XorShifted(c, h);
    XorSwaps(c, h);
    TurnsAreLinear(HighWith(x, c) * 256, l, 8);
    EntryIsTurns(HighWith(x, c));
    TurnsOfLow(l);
  }

  /** The loop of the source over part of a vector. */
  method Checksum(data: seq<byte>, offset: nat, length: nat) returns (crc: word)
    requires offset + length <= |data|
    ensures crc == BitwiseCrc(data[offset..offset + length])
  {
    hide ByTable, WithByte;
    crc := 0;
    var i := 0;
    while i < length
      invariant i <= length && crc == BitwiseCrc(data[offset..offset + i])
    {
      StepByTable(crc, data[offset + i]);
      assert data[offset..offset + i + 1][..i] == data[offset..offset + i];
      crc := ByTable(crc, data[offset + i]);
      i := i + 1;
    }
  }
}
