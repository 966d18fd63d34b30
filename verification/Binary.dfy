// Numbers and the bit-vectors that hold their binary digits. The conversions
// are spelled out digit by digit.
module Binary {
  import opened Bytes

  function Exp2(n: nat): (r: nat)
    ensures r >= 1
  {
    if n == 0 then 1 else 2 * Exp2(n - 1)
  }

  lemma Exp2At8And16()
    ensures Exp2(8) == 0x100 && Exp2(16) == 0x1_0000
  {
    assert Exp2(4) == 16;
    assert Exp2(8) == 16 * Exp2(4);
    assert Exp2(12) == 16 * Exp2(8);
  }

  // The low n binary digits of b.
  function Digits(b: nat, n: nat): bv8
    decreases n
  {
    if n == 0 then 0 else PushDigit(Digits(b / 2, n - 1), b % 2 == 1)
  }

  function PushDigit(x: bv8, one: bool): bv8 {
    (x << 1) | (if one then 1 else 0)
  }

  // The number written by the low n digits of c.
  function Value(c: bv16, n: nat): (r: nat)
    ensures r < Exp2(n)
    decreases n
  {
    if n == 0 then 0 else 2 * Value(c >> 1, n - 1) + (if c & 1 == 1 then 1 else 0)
  }

  function Octet(b: byte): bv8 {
    Digits(b, 8)
  }

  function RegisterValue(c: bv16): (r: nat)
    ensures r < 0x1_0000
  {
    Exp2At8And16();
    Value(c, 16)
  }

  // --- Both are one to one ---------------------------------------------------

  function Ones8(n: nat): bv8 {
    if n == 0 then 0 else (Ones8(n - 1) << 1) | 1
  }

  function Ones16(n: nat): bv16 {
    if n == 0 then 0 else (Ones16(n - 1) << 1) | 1
  }

  lemma {:induction false} DigitsFit(b: nat, n: nat)
    ensures Digits(b, n) & !Ones8(n) == 0
    decreases n
  {
    if n > 0 {
      DigitsFit(b / 2, n - 1);
      PushFits(Digits(b / 2, n - 1), Ones8(n - 1), b % 2 == 1);
    }
  }

  lemma PushFits(x: bv8, m: bv8, one: bool)
    requires x & !m == 0
    ensures PushDigit(x, one) & !((m << 1) | 1) == 0
  {
  }

  lemma PushInjective(x: bv8, y: bv8, i: bool, j: bool, m: bv8)
    requires x & !m == 0 && y & !m == 0 && m & 0x80 == 0
    requires PushDigit(x, i) == PushDigit(y, j)
    ensures x == y && i == j
  {
  }

  lemma {:induction false} Ones8Top(n: nat)
    requires n < 8
    ensures Ones8(n) & 0x80 == 0
  {
    assert Ones8(3) == 7;
    assert Ones8(5) == 31;
    assert Ones8(7) == 127;
  }

  lemma {:induction false} DigitsInjective(a: nat, b: nat, n: nat)
    requires n <= 8 && a < Exp2(n) && b < Exp2(n)
    requires Digits(a, n) == Digits(b, n)
    ensures a == b
    decreases n
  {
    if n > 0 {
      DigitsFit(a / 2, n - 1);
      DigitsFit(b / 2, n - 1);
      Ones8Top(n - 1);
      PushInjective(Digits(a / 2, n - 1), Digits(b / 2, n - 1), a % 2 == 1, b % 2 == 1, Ones8(n - 1));
      DigitsInjective(a / 2, b / 2, n - 1);
    }
  }

  lemma {:induction false} ValueInjective(a: bv16, b: bv16, n: nat)
    requires Value(a, n) == Value(b, n)
    ensures (a ^ b) & Ones16(n) == 0
    decreases n
  {
    if n > 0 {
      ValueInjective(a >> 1, b >> 1, n - 1);
      AgreeOnePlace(a, b, Ones16(n - 1));
    }
  }

  lemma AgreeOnePlace(a: bv16, b: bv16, m: bv16)
    requires ((a >> 1) ^ (b >> 1)) & m == 0
    requires a & 1 == b & 1
    ensures (a ^ b) & ((m << 1) | 1) == 0
  {
  }

  lemma OctetInjective(a: byte, b: byte)
    ensures Octet(a) == Octet(b) <==> a == b
  {
    Exp2At8And16();
    if Octet(a) == Octet(b) { DigitsInjective(a, b, 8); }
  }

  lemma RegisterValueInjective(a: bv16, b: bv16)
    ensures RegisterValue(a) == RegisterValue(b) <==> a == b
  {
    if RegisterValue(a) == RegisterValue(b) {
      ValueInjective(a, b, 16);
      Ones16All();
      XorAll(a, b);
    }
  }

  lemma Ones16All()
    ensures Ones16(16) == 0xFFFF
  {
    assert Ones16(4) == 0xF;
    assert Ones16(8) == 0xFF;
    assert Ones16(12) == 0xFFF;
  }

  lemma XorAll(a: bv16, b: bv16)
    requires (a ^ b) & 0xFFFF == 0
    ensures a == b
  {
  }

  // --- Both keep the value -----------------------------------------------------

  // More digits than a number has change nothing.
  lemma {:induction false} DigitsEnough(b: nat, n: nat)
    requires b < Exp2(n)
    ensures Digits(b, n + 1) == Digits(b, n)
    decreases n
  {
    if n == 0 {
      assert Digits(b / 2, 0) == 0 && b == 0;
    } else {
      DigitsEnough(b / 2, n - 1);
    }
  }

  // A byte's bits are its number in binary: doubling it shifts them, the parity is
  // the last of them.
  lemma OctetDoubles(b: byte, odd: bool)
    requires b < 128
    ensures Octet(0) == 0
    ensures Octet(2 * b + if odd then 1 else 0) == (Octet(b) << 1) | if odd then 1 else 0
  {
    OctetOfZero();
    Exp2At8And16();
    DigitsEnough(b, 7);
    var d := 2 * b + if odd then 1 else 0;
    assert d / 2 == b && (d % 2 == 1 <==> odd);
    assert Digits(d, 8) == PushDigit(Digits(b, 7), odd);
  }

  lemma {:induction false} DigitsOfZero(n: nat)
    ensures Digits(0, n) == 0
    decreases n
  {
    if n > 0 { DigitsOfZero(n - 1); }
  }

  lemma OctetOfZero()
    ensures Octet(0) == 0
  {
    DigitsOfZero(8);
  }

  lemma ValueStep(x: bv16, half: bv16, n: nat)
    requires half == x >> 1
    ensures Value(x, n + 1) == 2 * Value(half, n) + if x & 1 == 1 then 1 else 0
  {
  }

  // Nothing is left of x after n halvings.
  predicate Spent(x: bv16, n: nat) {
    if n == 0 then x == 0 else Spent(x >> 1, n - 1)
  }

  lemma SpentStep(x: bv16, half: bv16, n: nat)
    requires half == x >> 1
    ensures Spent(x, n + 1) <==> Spent(half, n)
  {
  }

  lemma FourHalves(x: bv16, a: bv16, b: bv16, c: bv16, d: bv16)
    requires a == x >> 1 && b == a >> 1 && c == b >> 1 && d == c >> 1
    ensures d == x >> 4
  {
  }

  lemma SpentFour(x: bv16, n: nat, d: bv16)
    requires d == x >> 4 && Spent(d, n)
    ensures Spent(x, n + 4)
  {
    var a := x >> 1;
    var b := a >> 1;
    var c := b >> 1;
    FourHalves(x, a, b, c, c >> 1);
    SpentStep(c, d, n);
    SpentStep(b, c, n + 1);
    SpentStep(a, b, n + 2);
    SpentStep(x, a, n + 3);
  }

  lemma SixteenHalves(x: bv16)
    ensures (((x >> 4) >> 4) >> 4) >> 4 == 0
  {
  }

  lemma AllSpent(x: bv16)
    ensures Spent(x, 16)
  {
    var a := x >> 4;
    var b := a >> 4;
    var c := b >> 4;
    var d := c >> 4;
    SixteenHalves(x);
    SpentZero(d);
    SpentFour(c, 0, d);
    SpentFour(b, 4, c);
    SpentFour(a, 8, b);
    SpentFour(x, 12, a);
  }

  lemma SpentZero(d: bv16)
    requires d == 0
    ensures Spent(d, 0)
  {
  }

  lemma ZeroHasNoBit(x: bv16)
    requires x == 0
    ensures x & 1 == 0
  {
  }

  // More digits than a register has change nothing.
  lemma {:induction false} ValueEnough(x: bv16, half: bv16, n: nat)
    requires Spent(x, n) && half == x >> 1
    ensures Value(x, n + 1) == Value(x, n)
    decreases n
  {
    ValueStep(x, half, n);
    if n == 0 {
      ZeroHasNoBit(x);
    } else {
      SpentStep(x, half, n - 1);
      ValueEnough(half, half >> 1, n - 1);
      ValueStep(x, half, n - 1);
    }
  }

  // A register's number is its bits read in binary.
  lemma RegisterHalves(c: bv16, half: bv16)
    requires half == c >> 1
    ensures RegisterValue(c) == 2 * RegisterValue(half) + if c & 1 == 1 then 1 else 0
  {
    AllSpent(c);
    SpentStep(c, half, 15);
    ValueEnough(half, half >> 1, 15);
    ValueStep(c, half, 15);
  }
}
