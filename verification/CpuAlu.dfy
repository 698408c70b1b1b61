// The 6502's status flags and arithmetic: what each operation makes of a register and the flags, and what
// that means as arithmetic on numbers of any length, binary and packed decimal.

module CpuAlu {
  import opened Bits

  /** The status register, bit 7 first. */
  datatype Flags = Flags(n: bool, v: bool, x: bool, b: bool, d: bool, i: bool, z: bool, c: bool)

  function Append(high: nat, flag: bool): nat {
    2 * high + if flag then 1 else 0
  }

  function Pack(p: Flags): byte {
    Append(Append(Append(Append(Append(Append(Append(Append(0, p.n), p.v), p.x), p.b), p.d), p.i), p.z), p.c)
  }

  function Unpack(v: byte): Flags {
    Flags(Bit(v, 7), Bit(v, 6), Bit(v, 5), Bit(v, 4), Bit(v, 3), Bit(v, 2), Bit(v, 1), Bit(v, 0))
  }

  lemma {:induction false} AppendedBit(high: nat, flag: bool)
    ensures Bit(Append(high, flag), 0) == flag
    ensures forall i: nat :: 0 < i ==> Bit(Append(high, flag), i) == Bit(high, i - 1)
  {
  }

  /** A pushed status register is pulled as it was. */
  lemma FlagsSurvive(p: Flags)
    ensures Unpack(Pack(p)) == p
  {
    hide Append, Bit;
    var n := Append(0, p.n);
    var v := Append(n, p.v);
    var x := Append(v, p.x);
    var b := Append(x, p.b);
    var d := Append(b, p.d);
    var i := Append(d, p.i);
    var z := Append(i, p.z);
    AppendedBit(z, p.c);
    AppendedBit(i, p.z);
    AppendedBit(d, p.i);
    AppendedBit(b, p.d);
    AppendedBit(x, p.b);
    AppendedBit(v, p.x);
    AppendedBit(n, p.v);
    AppendedBit(0, p.n);
  }

  predicate Negative(v: byte) {
    128 <= v
  }

  function SetNZ(p: Flags, v: byte): Flags {
    p.(n := Negative(v), z := v == 0)
  }

  /** What an operation leaves in a register and in the flags. */
  datatype Result = Result(value: byte, p: Flags)

  // ---------------------------------------------------------------- addition and subtraction

  function CarryIn(p: Flags): nat {
    if p.c then 1 else 0
  }

  function AddBinary(a: byte, v: byte, p: Flags): Result {
    var sum := a + v + CarryIn(p);
    Result(sum % 256,
           p.(c := 256 <= sum, v := Negative(a) == Negative(v) && Negative(a) != Negative(sum % 256),
              n := Negative(sum % 256), z := sum % 256 == 0))
  }

  /** A digit's sum, moved past 15 where it is past 9. */
  function PastNine(sum: nat): nat {
    if 9 < sum then sum + 6 else sum
  }

  function LowSum(a: nat, v: nat, carry: nat): nat {
    PastNine(a + v + carry)
  }

  function HighSum(a: nat, v: nat, low: nat): nat {
    a + v + if 15 < low then 1 else 0
  }

  function AddDecimal(a: byte, v: byte, p: Flags): Result {
    var al := LowSum(a % 16, v % 16, CarryIn(p));
    var ah := HighSum(a / 16, v / 16, al);
    var zero := (a + v + CarryIn(p)) % 256 == 0;
    Result(PastNine(ah) % 16 * 16 + al % 16,
           p.(c := 15 < PastNine(ah), z := zero, n := !zero && ah / 8 % 2 == 1,
              v := Negative(a) == Negative(v) && Negative(a) != (ah / 8 % 2 == 1)))
  }

  function Add(a: byte, v: byte, p: Flags): Result {
    if p.d then AddDecimal(a, v, p) else AddBinary(a, v, p)
  }

  function SubBinary(a: byte, v: byte, p: Flags): Result {
    var diff := a - v - (1 - CarryIn(p));
    Result(diff % 256,
           p.(c := 0 <= diff, v := Negative(a) != Negative(v) && Negative(a) != Negative(diff % 256),
              n := Negative(diff % 256), z := diff % 256 == 0))
  }

  /** A digit's difference, moved down past the digits A to F where it borrows. */
  function BelowZero(difference: int): int {
    if difference < 0 then difference - 6 else difference
  }

  function LowDifference(a: nat, v: nat, borrow: nat): int {
    BelowZero(a - v - borrow)
  }

  function HighDifference(a: nat, v: nat, low: int): int {
    a - v - if low < 0 then 1 else 0
  }

  function SubDecimal(a: byte, v: byte, p: Flags): Result {
    var diff := a - v - (1 - CarryIn(p));
    var al := LowDifference(a % 16, v % 16, 1 - CarryIn(p));
    var ah := HighDifference(a / 16, v / 16, al);
    Result(BelowZero(ah) % 16 * 16 + al % 16,
           p.(c := 0 <= diff, z := diff % 256 == 0, n := diff % 256 != 0 && Negative(diff % 256),
              v := Negative(a) != Negative(v) && Negative(a) != Negative(diff % 256)))
  }

  function Sub(a: byte, v: byte, p: Flags): Result {
    if p.d then SubDecimal(a, v, p) else SubBinary(a, v, p)
  }

  function Compare(register: byte, v: byte, p: Flags): Flags {
    p.(c := v <= register, n := Negative((register - v) % 256), z := register == v)
  }

  // ---------------------------------------------------------------- shifts and steps

  datatype Modifier = Asl | Lsr | Rol | Ror | Inc | Dec

  function ModifiedValue(m: Modifier, v: byte, p: Flags): byte {
    match m
    case Asl => v * 2 % 256
    case Lsr => v / 2
    case Rol => v * 2 % 256 + CarryIn(p)
    case Ror => v / 2 + if p.c then 128 else 0
    case Inc => (v + 1) % 256
    case Dec => (v - 1) % 256
  }

  function ModifiedCarry(m: Modifier, v: byte, p: Flags): bool {
    match m
    case Asl => Negative(v)
    case Rol => Negative(v)
    case Lsr => v % 2 == 1
    case Ror => v % 2 == 1
    case _ => p.c
  }

  function Modify(m: Modifier, v: byte, p: Flags): Result {
    var r := ModifiedValue(m, v, p);
    Result(r, SetNZ(p, r).(c := ModifiedCarry(m, v, p)))
  }

  // ---------------------------------------------------------------- what one addition or subtraction means

  /** A byte as a signed number. */
  function Signed(v: byte): int {
    if Negative(v) then v - 256 else v
  }

  /** The sum with carry, and the overflow of the signed sum. */
  lemma AddBinaryMeans(a: byte, v: byte, p: Flags)
    ensures var r := AddBinary(a, v, p);
            r.value + 256 * CarryIn(r.p) == a + v + CarryIn(p) &&
            r.p.v == !(-128 <= Signed(a) + Signed(v) + CarryIn(p) < 128) &&
            r.p.n == (Signed(r.value) < 0) && r.p.z == (r.value == 0) &&
            r.p.(c := p.c, v := p.v, n := p.n, z := p.z) == p
  {
  }

  lemma SubBinaryMeans(a: byte, v: byte, p: Flags)
    ensures var r := SubBinary(a, v, p);
            r.value - 256 * (1 - CarryIn(r.p)) == a - v - (1 - CarryIn(p)) &&
            r.p.v == !(-128 <= Signed(a) - Signed(v) - (1 - CarryIn(p)) < 128) &&
            r.p.n == (Signed(r.value) < 0) && r.p.z == (r.value == 0) &&
            r.p.(c := p.c, v := p.v, n := p.n, z := p.z) == p
  {
  }

  predicate IsDecimal(v: byte) {
    v / 16 < 10 && v % 16 < 10
  }

  /** The number that two packed digits stand for. */
  function Decimal(v: byte): nat {
    v / 16 * 10 + v % 16
  }

  lemma DigitsAdd(a1: nat, a0: nat, v1: nat, v0: nat, carry: nat)
    requires a1 < 10 && a0 < 10 && v1 < 10 && v0 < 10 && carry < 2
    ensures var al := LowSum(a0, v0, carry);
            var ah := PastNine(HighSum(a1, v1, al));
            ah % 16 < 10 && al % 16 < 10 &&
            ah % 16 * 10 + al % 16 + (if 15 < ah then 100 else 0) == a1 * 10 + a0 + v1 * 10 + v0 + carry
  {
  }

  lemma DigitsSubtract(a1: nat, a0: nat, v1: nat, v0: nat, borrow: nat)
    requires a1 < 10 && a0 < 10 && v1 < 10 && v0 < 10 && borrow < 2
    ensures var al := LowDifference(a0, v0, borrow);
            var ah := BelowZero(HighDifference(a1, v1, al));
            ah % 16 < 10 && al % 16 < 10 && (ah < 0) == (a1 * 16 + a0 < v1 * 16 + v0 + borrow) &&
            ah % 16 * 10 + al % 16 - (if ah < 0 then 100 else 0) == a1 * 10 + a0 - (v1 * 10 + v0) - borrow
  {
  }

  lemma AddDecimalMeans(a: byte, v: byte, p: Flags)
    requires IsDecimal(a) && IsDecimal(v)
    ensures var r := AddDecimal(a, v, p);
            IsDecimal(r.value) && Decimal(r.value) + 100 * CarryIn(r.p) == Decimal(a) + Decimal(v) + CarryIn(p)
  {
    hide LowSum, HighSum, PastNine, Negative;
    DigitsAdd(a / 16, a % 16, v / 16, v % 16, CarryIn(p));
    var al := LowSum(a % 16, v % 16, CarryIn(p));
    PackedDigits(PastNine(HighSum(a / 16, v / 16, al)) % 16, al % 16);
  }

  lemma SubDecimalMeans(a: byte, v: byte, p: Flags)
    requires IsDecimal(a) && IsDecimal(v)
    ensures var r := SubDecimal(a, v, p);
            IsDecimal(r.value) &&
            Decimal(r.value) - 100 * (1 - CarryIn(r.p)) == Decimal(a) - Decimal(v) - (1 - CarryIn(p))
  {
    hide LowDifference, HighDifference, BelowZero, Negative;
    DigitsSubtract(a / 16, a % 16, v / 16, v % 16, 1 - CarryIn(p));
    var al := LowDifference(a % 16, v % 16, 1 - CarryIn(p));
    PackedDigits(BelowZero(HighDifference(a / 16, v / 16, al)) % 16, al % 16);
  }

  /**
   * The flags of decimal mode. Subtraction's are those of binary mode, whatever the operands. Addition takes Z from
   * the binary sum, and N and V from the third bit of the decimal sum's tens.
   */
  lemma DecimalFlags(a: byte, v: byte, p: Flags)
    ensures SubDecimal(a, v, p).p == SubBinary(a, v, p).p
    ensures var r := AddDecimal(a, v, p).p;
            r.z == AddBinary(a, v, p).p.z && r.(c := p.c, v := p.v, n := p.n, z := p.z) == p
    ensures IsDecimal(a) && IsDecimal(v) ==>
              var r := AddDecimal(a, v, p).p;
              var high := (Decimal(a) + Decimal(v) + CarryIn(p)) / 10 / 8 % 2 == 1;
              r.n == (high && !r.z) && r.v == (Negative(a) == Negative(v) && Negative(a) != high)
  {
    if IsDecimal(a) && IsDecimal(v) {
      TensOfSum(a / 16, a % 16, v / 16, v % 16, CarryIn(p));
    }
  }

  lemma TensOfSum(ah: nat, al: nat, vh: nat, vl: nat, carry: nat)
    requires al < 10 && vl < 10 && carry <= 1
    ensures HighSum(ah, vh, LowSum(al, vl, carry)) == (ah * 10 + al + (vh * 10 + vl) + carry) / 10
  {
    var low := al + vl + carry;
    assert ah * 10 + al + (vh * 10 + vl) + carry == (ah + vh) * 10 + low;
  }

  lemma PackedDigits(high: nat, low: nat)
    requires high < 16 && low < 16
    ensures (high * 16 + low) / 16 == high && (high * 16 + low) % 16 == low
  {
  }

  // ---------------------------------------------------------------- chains of any length

  /** A number's bytes, lowest first; the carry runs from each byte to the next. */
  datatype Chain = Chain(bytes: seq<byte>, p: Flags)

  function AddAll(a: seq<byte>, v: seq<byte>, p: Flags): Chain
    requires |a| == |v|
  {
    if a == [] then Chain([], p)
    else
      var r := Add(a[0], v[0], p);
      var rest := AddAll(a[1..], v[1..], r.p);
      Chain([r.value] + rest.bytes, rest.p)
  }

  function SubAll(a: seq<byte>, v: seq<byte>, p: Flags): Chain
    requires |a| == |v|
  {
    if a == [] then Chain([], p)
    else
      var r := Sub(a[0], v[0], p);
      var rest := SubAll(a[1..], v[1..], r.p);
      Chain([r.value] + rest.bytes, rest.p)
  }

  function Base(decimal: bool): nat {
    if decimal then 100 else 256
  }

  function Span(decimal: bool, bytes: nat): nat {
    if bytes == 0 then 1 else Base(decimal) * Span(decimal, bytes - 1)
  }

  function Worth(decimal: bool, v: byte): nat {
    if decimal then Decimal(v) else v
  }

  function Number(decimal: bool, a: seq<byte>): nat {
    if a == [] then 0 else Worth(decimal, a[0]) + Base(decimal) * Number(decimal, a[1..])
  }

  predicate Digits(decimal: bool, a: seq<byte>) {
    decimal ==> forall i :: 0 <= i < |a| ==> IsDecimal(a[i])
  }

  lemma AddStep(a: byte, v: byte, p: Flags)
    requires p.d ==> IsDecimal(a) && IsDecimal(v)
    ensures var r := Add(a, v, p);
            r.p.d == p.d && (p.d ==> IsDecimal(r.value)) &&
            Worth(p.d, r.value) + Base(p.d) * CarryIn(r.p) == Worth(p.d, a) + Worth(p.d, v) + CarryIn(p)
  {
    hide AddBinary, AddDecimal, Decimal;
    if p.d { AddDecimalMeans(a, v, p); } else { AddBinaryMeans(a, v, p); }
    AddKeepsMode(a, v, p);
  }

  lemma AddKeepsMode(a: byte, v: byte, p: Flags)
    ensures Add(a, v, p).p.d == p.d && Sub(a, v, p).p.d == p.d
  {
  }

  lemma SubStep(a: byte, v: byte, p: Flags)
    requires p.d ==> IsDecimal(a) && IsDecimal(v)
    ensures var r := Sub(a, v, p);
            r.p.d == p.d && (p.d ==> IsDecimal(r.value)) &&
            Worth(p.d, r.value) - Base(p.d) * (1 - CarryIn(r.p)) == Worth(p.d, a) - Worth(p.d, v) - (1 - CarryIn(p))
  {
    hide SubBinary, SubDecimal, Decimal;
    if p.d { SubDecimalMeans(a, v, p); } else { SubBinaryMeans(a, v, p); }
    AddKeepsMode(a, v, p);
  }

  /** The sum of two numbers of any length, with the carry out as its last digit. */
  lemma {:induction false} AddAllIsSum(a: seq<byte>, v: seq<byte>, p: Flags)
    requires |a| == |v| && Digits(p.d, a) && Digits(p.d, v)
    ensures var r := AddAll(a, v, p);
            |r.bytes| == |a| && r.p.d == p.d && Digits(p.d, r.bytes) &&
            Number(p.d, r.bytes) + Span(p.d, |a|) * CarryIn(r.p) == Number(p.d, a) + Number(p.d, v) + CarryIn(p)
  {
    hide Add, IsDecimal, Worth, Base;
    if a != [] {
      AddStep(a[0], v[0], p);
      var r := Add(a[0], v[0], p);
      AddAllIsSum(a[1..], v[1..], r.p);
      var rest := AddAll(a[1..], v[1..], r.p);
      assert ([r.value] + rest.bytes)[1..] == rest.bytes;
      Carried(Base(p.d), Number(p.d, rest.bytes), Span(p.d, |a| - 1), CarryIn(rest.p),
              Number(p.d, a[1..]), Number(p.d, v[1..]), CarryIn(r.p));
    }
  }

  lemma Carried(base: nat, n: nat, span: nat, out: nat, a: nat, v: nat, carry: nat)
    requires n + span * out == a + v + carry
    ensures base * n + base * span * out == base * a + base * v + base * carry
  {
    assert base * (n + span * out) == base * n + base * span * out;
    assert base * (a + v + carry) == base * a + base * v + base * carry;
  }

  lemma {:induction false} SubAllIsDifference(a: seq<byte>, v: seq<byte>, p: Flags)
    requires |a| == |v| && Digits(p.d, a) && Digits(p.d, v)
    ensures var r := SubAll(a, v, p);
            |r.bytes| == |a| && r.p.d == p.d && Digits(p.d, r.bytes) &&
            Number(p.d, a) + Span(p.d, |a|) * (1 - CarryIn(r.p)) ==
            Number(p.d, r.bytes) + Number(p.d, v) + (1 - CarryIn(p))
  {
    hide Sub, IsDecimal, Worth, Base;
    if a != [] {
      SubStep(a[0], v[0], p);
      var r := Sub(a[0], v[0], p);
      SubAllIsDifference(a[1..], v[1..], r.p);
      var rest := SubAll(a[1..], v[1..], r.p);
      assert ([r.value] + rest.bytes)[1..] == rest.bytes;
      Borrowed(Base(p.d), Number(p.d, rest.bytes), Span(p.d, |a| - 1), 1 - CarryIn(rest.p),
               Number(p.d, a[1..]), Number(p.d, v[1..]), 1 - CarryIn(r.p));
    }
  }

  lemma Borrowed(base: nat, n: nat, span: nat, out: nat, a: nat, v: nat, borrow: nat)
    requires n + v + borrow == a + span * out
    ensures base * n + base * v + base * borrow == base * a + base * span * out
  {
    assert base * (a + span * out) == base * a + base * span * out;
    assert base * (n + v + borrow) == base * n + base * v + base * borrow;
  }

  lemma {:induction false} NumberFits(decimal: bool, a: seq<byte>)
    requires Digits(decimal, a)
    ensures Number(decimal, a) < Span(decimal, |a|)
  {
    if a != [] {
      NumberFits(decimal, a[1..]);
      assert Base(decimal) * Number(decimal, a[1..]) <= Base(decimal) * (Span(decimal, |a| - 1) - 1);
    }
  }

  /**
   * Chained over n bytes, addition is addition modulo 256^n, or modulo 100^n on packed decimal, and the carry
   * says whether the sum was too large; subtraction likewise, and the carry says that nothing was borrowed.
   */
  lemma ChainsAreArithmetic(a: seq<byte>, v: seq<byte>, p: Flags)
    requires |a| == |v| && Digits(p.d, a) && Digits(p.d, v)
    ensures var sum, r := Number(p.d, a) + Number(p.d, v) + CarryIn(p), AddAll(a, v, p);
            var span := Span(p.d, |a|);
            r.p.c == (span <= sum) && Number(p.d, r.bytes) == if r.p.c then sum - span else sum
    ensures var diff, r := Number(p.d, a) - Number(p.d, v) - (1 - CarryIn(p)), SubAll(a, v, p);
            var span := Span(p.d, |a|);
            r.p.c == (0 <= diff) && Number(p.d, r.bytes) == if r.p.c then diff else diff + span
  {
    hide AddAll, SubAll, Number, Span, Digits;
    AddAllIsSum(a, v, p);
    SubAllIsDifference(a, v, p);
    NumberFits(p.d, a);
    NumberFits(p.d, v);
    NumberFits(p.d, AddAll(a, v, p).bytes);
    NumberFits(p.d, SubAll(a, v, p).bytes);
  }

  // ---------------------------------------------------------------- shifts of any length

  /** What a shift takes in: the carry for a rotation, nothing otherwise. */
  function TakenIn(m: Modifier, p: Flags): nat {
    if m.Rol? || m.Ror? then CarryIn(p) else 0
  }

  /** One byte: a left shift doubles, a right shift halves, and the carry is the bit that falls out. */
  lemma ModifiedMeans(m: Modifier, v: byte, p: Flags)
    ensures var value, carry := ModifiedValue(m, v, p), if ModifiedCarry(m, v, p) then 1 else 0;
            match m
            case Asl => value + 256 * carry == 2 * v
            case Rol => value + 256 * carry == 2 * v + CarryIn(p)
            case Lsr => 2 * value + carry == v
            case Ror => 2 * value + carry == v + 256 * CarryIn(p)
            case Inc => value == (if v == 255 then 0 else v + 1) && carry == CarryIn(p)
            case Dec => value == (if v == 0 then 255 else v - 1) && carry == CarryIn(p)
  {
  }

  lemma ModifyMeans(m: Modifier, v: byte, p: Flags)
    ensures var r := Modify(m, v, p);
            && (m.Asl? || m.Rol? ==> r.value + 256 * CarryIn(r.p) == 2 * v + TakenIn(m, p))
            && (m.Lsr? || m.Ror? ==> 2 * r.value + CarryIn(r.p) == v + 256 * TakenIn(m, p))
            && r.p.n == (Signed(r.value) < 0) && r.p.z == (r.value == 0)
            && r.p.(c := p.c, n := p.n, z := p.z) == p
  {
    hide ModifiedValue, ModifiedCarry;
    ModifiedMeans(m, v, p);
  }

  /** The lowest byte shifted left, and the carry rotated through the others. */
  function LeftAll(m: Modifier, a: seq<byte>, p: Flags): Chain
    decreases |a|
  {
    if a == [] then Chain([], p)
    else
      var r := Modify(m, a[0], p);
      var rest := LeftAll(Rol, a[1..], r.p);
      Chain([r.value] + rest.bytes, rest.p)
  }

  /** The highest byte shifted right, and the carry rotated down through the others. */
  function RightAll(m: Modifier, a: seq<byte>, p: Flags): Chain
    requires a != []
    decreases |a|
  {
    if |a| == 1 then
      var r := Modify(m, a[0], p);
      Chain([r.value], r.p)
    else
      var rest := RightAll(m, a[1..], p);
      var r := Modify(Ror, a[0], rest.p);
      Chain([r.value] + rest.bytes, r.p)
  }

  lemma {:induction false} LeftAllDoubles(m: Modifier, a: seq<byte>, p: Flags)
    requires a != [] && (m.Asl? || m.Rol?)
    ensures var r := LeftAll(m, a, p);
            |r.bytes| == |a| &&
            Number(false, r.bytes) + Span(false, |a|) * CarryIn(r.p) == 2 * Number(false, a) + TakenIn(m, p)
    decreases |a|
  {
    hide Modify;
    var r := Modify(m, a[0], p);
    var rest := LeftAll(Rol, a[1..], r.p);
    ModifyMeans(m, a[0], p);
    assert ([r.value] + rest.bytes)[1..] == rest.bytes;
    if |a| > 1 {
      LeftAllDoubles(Rol, a[1..], r.p);
      LeftCarried(Number(false, rest.bytes), Span(false, |a| - 1), CarryIn(rest.p), Number(false, a[1..]),
                  CarryIn(r.p));
    } else {
      assert rest == Chain([], r.p) && Span(false, 0) == 1;
    }
  }

  lemma LeftCarried(n: nat, span: nat, out: nat, a: nat, carry: nat)
    requires n + span * out == 2 * a + carry
    ensures 256 * n + 256 * span * out == 2 * (256 * a) + 256 * carry
  {
    assert 256 * span * out == 256 * (span * out);
  }

  lemma {:induction false} RightAllHalves(m: Modifier, a: seq<byte>, p: Flags)
    requires a != [] && (m.Lsr? || m.Ror?)
    ensures var r := RightAll(m, a, p);
            |r.bytes| == |a| &&
            2 * Number(false, r.bytes) + CarryIn(r.p) == Number(false, a) + Span(false, |a|) * TakenIn(m, p)
    decreases |a|
  {
    hide Modify;
    if |a| == 1 {
      var r := Modify(m, a[0], p);
      ModifyMeans(m, a[0], p);
      assert [r.value][1..] == [] && a[1..] == [] && Span(false, 1) == 256 * Span(false, 0);
    } else {
      RightAllHalves(m, a[1..], p);
      var rest := RightAll(m, a[1..], p);
      var r := Modify(Ror, a[0], rest.p);
      ModifyMeans(Ror, a[0], rest.p);
      assert ([r.value] + rest.bytes)[1..] == rest.bytes;
      RightCarried(Number(false, rest.bytes), CarryIn(rest.p), Number(false, a[1..]), Span(false, |a| - 1),
                   TakenIn(m, p));
    }
  }

  lemma RightCarried(n: nat, out: nat, a: nat, span: nat, carry: nat)
    requires 2 * n + out == a + span * carry
    ensures 2 * (256 * n) + 256 * out == 256 * a + 256 * span * carry
  {
    assert 256 * span * carry == 256 * (span * carry);
  }

  /**
   * Chained over n bytes from the lowest up, a shift left doubles modulo 256^n, and chained from the highest down a
   * shift right halves, each with the bit that falls out as the last carry; a rotation also takes the carry in.
   */
  lemma ShiftsAreArithmetic(left: Modifier, right: Modifier, a: seq<byte>, p: Flags)
    requires a != [] && (left.Asl? || left.Rol?) && (right.Lsr? || right.Ror?)
    ensures var twice, r := 2 * Number(false, a) + TakenIn(left, p), LeftAll(left, a, p);
            var span := Span(false, |a|);
            r.p.c == (span <= twice) && Number(false, r.bytes) == if r.p.c then twice - span else twice
    ensures var whole, r := Number(false, a) + Span(false, |a|) * TakenIn(right, p), RightAll(right, a, p);
            r.p.c == (whole % 2 == 1) && Number(false, r.bytes) == whole / 2
  {
    hide LeftAll, RightAll, Number, Span;
    LeftAllDoubles(left, a, p);
    RightAllHalves(right, a, p);
    NumberFits(false, LeftAll(left, a, p).bytes);
  }
}
