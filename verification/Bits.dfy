// Bytes as numbers from 0 to 255, and the single-bit operations that the devices share:
// `(b >> i) & 1`, `b |= 1 << i` and `b >> n`, each by recursion on the bit number.

module Bits {

  datatype Option<+T> = None | Some(value: T)

  type byte = x: int | 0 <= x < 0x100

  /** `(b >> i) & 1`. */
  predicate Bit(b: nat, i: nat) {
    if i == 0 then b % 2 == 1 else Bit(b / 2, i - 1)
  }

  /** `b | (1 << i)`. */
  function SetBit(b: nat, i: nat): nat {
    if i == 0 then b - b % 2 + 1 else 2 * SetBit(b / 2, i - 1) + b % 2
  }

  /** `b | static_cast<uint8_t>(bit << i)`: nothing is left in a byte once i reaches 8. */
  function OrBit(b: nat, bit: bool, i: nat): nat {
    if bit && i < 8 then SetBit(b, i) else b
  }

  /** A line that stays at one level for n clocks or bits. */
  function Hold(bit: bool, n: nat): (r: seq<bool>)
    ensures |r| == n
  {
    seq(n, _ => bit)
  }

  function Mark(n: nat): (r: seq<bool>)
    ensures |r| == n
  {
    Hold(true, n)
  }

  /** The value of a `uint8_t` counter after `++`. */
  function Inc8(x: nat): nat {
    if x == 255 then 0 else x + 1
  }

  /** `b >> n`. */
  function Right(b: nat, n: nat): nat {
    if n == 0 then b else Right(b, n - 1) / 2
  }

  /** The low n bits of b, gathered from the lowest up. */
  function Low(b: nat, n: nat): nat {
    if n == 0 then 0 else OrBit(Low(b, n - 1), Bit(b, n - 1), n - 1)
  }

  /** Whether the low n bits of b hold an odd number of ones. */
  predicate OddOnes(b: nat, n: nat) {
    if n == 0 then false else OddOnes(b, n - 1) != Bit(b, n - 1)
  }

  /** Shifting right brings bit n to the bottom. */
  lemma {:induction false} BottomBit(b: nat, n: nat)
    ensures (Right(b, n) % 2 == 1) == Bit(b, n)
  {
    if n > 0 {
      BottomBit(b / 2, n - 1);
      RightOfHalf(b, n - 1);
    }
  }

  lemma {:induction false} RightOfHalf(b: nat, n: nat)
    ensures Right(b / 2, n) == Right(b, n + 1)
  {
    if n > 0 {
      RightOfHalf(b, n - 1);
    }
  }

  /** `1 << n`. */
  function Power(n: nat): nat {
    if n == 0 then 1 else 2 * Power(n - 1)
  }

  lemma {:induction false} SetNextBit(b: nat, n: nat)
    requires b < Power(n)
    ensures SetBit(b, n) == b + Power(n)
  {
    if n > 0 {
      SetNextBit(b / 2, n - 1);
    }
  }

  /** Gathering bits gives the remainder by a power of two, so eight of them give a byte back. */
  lemma {:induction false} LowIsRemainder(b: nat, n: nat)
    requires n <= 8
    ensures Low(b, n) < Power(n)
    ensures b == Low(b, n) + Power(n) * Right(b, n)
  {
    if n > 0 {
      LowIsRemainder(b, n - 1);
      SetNextBit(Low(b, n - 1), n - 1);
      BottomBit(b, n - 1);
      Halve(Power(n - 1), Right(b, n - 1));
    }
  }

  lemma Halve(p: nat, r: nat)
    ensures p * r == 2 * p * (r / 2) + (if r % 2 == 1 then p else 0)
  {
    assert r == 2 * (r / 2) + r % 2;
  }

  lemma WholeByte(b: byte)
    ensures Low(b, 8) == b
  {
    LowIsRemainder(b, 8);
    Powers();
    var r := Right(b, 8);
    assert b == Low(b, 8) + 256 * r;
  }

  /** A byte by its bits, from the highest down. */
  function ByteOf(b7: bool, b6: bool, b5: bool, b4: bool, b3: bool, b2: bool, b1: bool, b0: bool): nat {
    One(b7) * 0x80 + One(b6) * 0x40 + One(b5) * 0x20 + One(b4) * 0x10
    + One(b3) * 8 + One(b2) * 4 + One(b1) * 2 + One(b0)
  }

  function One(bit: bool): nat {
    if bit then 1 else 0
  }

  lemma BitsOfByte(b7: bool, b6: bool, b5: bool, b4: bool, b3: bool, b2: bool, b1: bool, b0: bool)
    ensures var b := ByteOf(b7, b6, b5, b4, b3, b2, b1, b0);
            && b < 0x100
            && Bit(b, 7) == b7 && Bit(b, 6) == b6 && Bit(b, 5) == b5 && Bit(b, 4) == b4
            && Bit(b, 3) == b3 && Bit(b, 2) == b2 && Bit(b, 1) == b1 && Bit(b, 0) == b0
  {
    ByteIsNibbles(b7, b6, b5, b4, b3, b2, b1, b0);
    NibbleBits(b7, b6, b5, b4, 0);
    NibbleBits(b3, b2, b1, b0, Nibble(b7, b6, b5, b4));
    hide Bit, ByteOf, Nibble;
  }

  function Nibble(b3: bool, b2: bool, b1: bool, b0: bool): nat {
    One(b3) * 8 + One(b2) * 4 + One(b1) * 2 + One(b0)
  }

  lemma ByteIsNibbles(b7: bool, b6: bool, b5: bool, b4: bool, b3: bool, b2: bool, b1: bool, b0: bool)
    ensures Nibble(b7, b6, b5, b4) < 16 && Nibble(b3, b2, b1, b0) < 16
    ensures ByteOf(b7, b6, b5, b4, b3, b2, b1, b0) == 16 * Nibble(b7, b6, b5, b4) + Nibble(b3, b2, b1, b0)
  {
  }

  lemma NibbleBits(b3: bool, b2: bool, b1: bool, b0: bool, high: nat)
    ensures var b := 16 * high + Nibble(b3, b2, b1, b0);
            && Bit(b, 3) == b3 && Bit(b, 2) == b2 && Bit(b, 1) == b1 && Bit(b, 0) == b0
            && Bit(b, 7) == Bit(high, 3) && Bit(b, 6) == Bit(high, 2)
            && Bit(b, 5) == Bit(high, 1) && Bit(b, 4) == Bit(high, 0)
  {
    var d3 := 2 * high + One(b3);
    var d2 := 2 * d3 + One(b2);
    var d1 := 2 * d2 + One(b1);
    var d0 := 2 * d1 + One(b0);
    hide Bit;
    BitsAbove(high, b3, d3);
    BitsAbove(d3, b2, d2);
    BitsAbove(d2, b1, d1);
    BitsAbove(d1, b0, d0);
  }

  lemma BitsAbove(n: nat, bit: bool, b: nat)
    requires b == 2 * n + One(bit)
    ensures Bit(b, 0) == bit && forall i | 0 < i :: Bit(b, i) == Bit(n, i - 1)
  {
  }

  lemma TopBit(b: byte)
    ensures Bit(b, 7) == (128 <= b)
  {
    BottomBit(b, 7);
    RightIs(b, 3);
    RightIs(b, 7);
  }

  lemma RightIs(b: nat, n: nat)
    requires n == 3 || n == 7
    ensures Right(b, n) == b / if n == 3 then 8 else 128
  {
    assert Right(b, 1) == b / 2;
    assert Right(b, 2) == b / 4;
    if n == 7 {
      assert Right(b, 4) == b / 16;
      assert Right(b, 6) == b / 64;
    }
  }

  lemma Powers()
    ensures Power(7) == 128 && Power(8) == 256
  {
    assert Power(4) == 16;
  }

  /** Every bit of 2^n - 1 is set. */
  lemma {:induction false} OnesAreSet(b: nat, k: nat, n: nat)
    requires k < n && b + 1 == Power(n)
    ensures Bit(b, k)
  {
    assert Power(n) == 2 * Power(n - 1);
    if k > 0 {
      assert b / 2 + 1 == Power(n - 1);
      OnesAreSet(b / 2, k - 1, n - 1);
    }
  }

  // ---------------------------------------------------------------- bitwise operators

  function And(a: nat, b: nat): nat {
    if a == 0 || b == 0 then 0 else 2 * And(a / 2, b / 2) + if a % 2 == 1 && b % 2 == 1 then 1 else 0
  }

  function Or(a: nat, b: nat): nat {
    if a == 0 || b == 0 then a + b else 2 * Or(a / 2, b / 2) + if a % 2 == 1 || b % 2 == 1 then 1 else 0
  }

  function Xor(a: nat, b: nat): nat {
    if a == 0 || b == 0 then a + b else 2 * Xor(a / 2, b / 2) + if a % 2 != b % 2 then 1 else 0
  }

  lemma {:induction false} NoBits(i: nat)
    ensures !Bit(0, i)
  {
    if i > 0 {
      NoBits(i - 1);
    }
  }

  /** The operators work on each bit by itself. */
  lemma {:induction false} AndBitwise(a: nat, b: nat, i: nat)
    ensures Bit(And(a, b), i) == (Bit(a, i) && Bit(b, i))
  {
    if a == 0 || b == 0 {
      NoBits(i);
    } else if i > 0 {
      AndBitwise(a / 2, b / 2, i - 1);
      assert And(a, b) / 2 == And(a / 2, b / 2);
    }
  }

  lemma {:induction false} OrBitwise(a: nat, b: nat, i: nat)
    ensures Bit(Or(a, b), i) == (Bit(a, i) || Bit(b, i))
  {
    if a == 0 || b == 0 {
      NoBits(i);
    } else {
      assert Or(a, b) / 2 == Or(a / 2, b / 2) && (Or(a, b) % 2 == 1) == (a % 2 == 1 || b % 2 == 1);
      hide Or;
      if i > 0 {
        OrBitwise(a / 2, b / 2, i - 1);
      }
    }
  }

  lemma {:induction false} XorBitwise(a: nat, b: nat, i: nat)
    ensures Bit(Xor(a, b), i) == (Bit(a, i) != Bit(b, i))
  {
    if a == 0 || b == 0 {
      NoBits(i);
    } else if i > 0 {
      XorBitwise(a / 2, b / 2, i - 1);
      assert Xor(a, b) / 2 == Xor(a / 2, b / 2);
    }
  }

  /** They stay within the width of their operands. */
  lemma {:induction false} BitwiseFits(a: nat, b: nat, n: nat)
    requires a < Power(n) && b < Power(n)
    ensures And(a, b) < Power(n) && Or(a, b) < Power(n) && Xor(a, b) < Power(n)
  {
    if n > 0 && a != 0 && b != 0 {
      BitwiseFits(a / 2, b / 2, n - 1);
    }
  }

  /** `h << n`. */
  function Left(h: nat, n: nat): nat {
    if n == 0 then h else 2 * Left(h, n - 1)
  }

  lemma LeftByte(h: nat)
    ensures Left(h, 8) == h * 256
  {
    assert Left(h, 1) == 2 * h;
    assert Left(h, 3) == 4 * Left(h, 1);
    assert Left(h, 5) == 4 * Left(h, 3);
    assert Left(h, 7) == 4 * Left(h, 5);
  }
}
