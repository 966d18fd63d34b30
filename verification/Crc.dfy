// CRC-16/XMODEM (internal/masso/frame.go): generator x^16 + x^12 + x^5 + 1,
// initial value 0, no reflection. Everything here is over bit-vectors; Wire
// converts the bytes of a datagram.
module Crc {
  import opened Folds

  // One bit of the division: shift the register left and, when a one falls
  // out of the top, subtract the generator.
  function Shift(c: bv16): bv16 {
    (c << 1) ^ ((c >> 15) * 0x1021)
  }

  // The register with byte b added at its top.
  function Mix(c: bv16, b: bv8): bv16 {
    c ^ ((b as bv16) << 8)
  }

  function Feed(c: bv16, b: bv8): bv16 {
    Iterate(Shift, Mix(c, b), 8)
  }

  // The register after data, starting from c.
  function From(c: bv16, data: seq<bv8>): bv16 {
    Fold(Feed, c, data)
  }

  function Sum(data: seq<bv8>): bv16 {
    From(0, data)
  }

  lemma ShiftCases(c: bv16)
    ensures c & 0x8000 != 0 ==> Shift(c) == (c << 1) ^ 0x1021
    ensures c & 0x8000 == 0 ==> Shift(c) == c << 1
  {
    if c & 0x8000 != 0 {
      TopSet(c);
    } else {
      TopClear(c);
      XorZero(c << 1);
    }
  }

  lemma TopSet(c: bv16)
    requires c & 0x8000 != 0
    ensures c >> 15 == 1
  {
  }

  lemma TopClear(c: bv16)
    requires c & 0x8000 == 0
    ensures c >> 15 == 0
  {
  }

  lemma XorZero(c: bv16)
    ensures c ^ 0 == c
  {
  }

  // The body of the inner loop.
  method NextBit(c: bv16) returns (r: bv16)
    ensures r == Shift(c)
  {
    ShiftCases(c);
    r := c << 1;
    if c & 0x8000 != 0 {
      r := r ^ 0x1021;
    }
  }

  // crc16XModem: the nested loop over bytes and bits.
  method Crc16XModem(data: seq<bv8>) returns (crc: bv16)
    ensures crc == Sum(data)
  {
    crc := 0;
    for i := 0 to |data|
      invariant From(crc, data[i..]) == Sum(data)
    {
      assert data[i..][0] == data[i] && data[i..][1..] == data[i + 1..];
      ghost var fed := Feed(crc, data[i]);
      crc := crc ^ ((data[i] as bv16) << 8);
      for k := 0 to 8
        invariant Iterate(Shift, crc, 8 - k) == fed
      {
        var next := NextBit(crc);
        IterateStep(Shift, crc, next, 8 - k);
        crc := next;
      }
    }
  }

  // --- Linearity -----------------------------------------------------------

  function Plus(a: bv16, b: bv16): bv16 {
    a ^ b
  }

  function PlusByte(a: bv8, b: bv8): bv8 {
    a ^ b
  }

  lemma ShiftLinear(a: bv16, b: bv16)
    ensures Shift(a ^ b) == Shift(a) ^ Shift(b)
  {
  }

  lemma MixLinear(a: bv16, b: bv16, x: bv8, y: bv8)
    ensures Mix(a ^ b, x ^ y) == Mix(a, x) ^ Mix(b, y)
  {
  }

  lemma ShiftsLinear()
    ensures forall a, b {:trigger Shift(Plus(a, b))} :: Shift(Plus(a, b)) == Plus(Shift(a), Shift(b))
  {
    forall a: bv16, b: bv16 ensures Shift(Plus(a, b)) == Plus(Shift(a), Shift(b)) {
      ShiftLinear(a, b);
    }
  }

  lemma StepsLinear(a: bv16, b: bv16, n: nat)
    ensures Iterate(Shift, Plus(a, b), n) == Plus(Iterate(Shift, a, n), Iterate(Shift, b, n))
  {
    ShiftsLinear();
    IterateLinear(Plus, Shift, a, b, n);
  }

  lemma FeedLinearAt(a: bv16, b: bv16, x: bv8, y: bv8)
    ensures Feed(Plus(a, b), PlusByte(x, y)) == Plus(Feed(a, x), Feed(b, y))
  {
    MixLinear(a, b, x, y);
    StepsLinear(Mix(a, x), Mix(b, y), 8);
  }

  lemma FeedLinear()
    ensures forall a, b, x, y {:trigger Feed(Plus(a, b), PlusByte(x, y))} ::
              Feed(Plus(a, b), PlusByte(x, y)) == Plus(Feed(a, x), Feed(b, y))
  {
    forall a, b, x, y ensures Feed(Plus(a, b), PlusByte(x, y)) == Plus(Feed(a, x), Feed(b, y)) {
      FeedLinearAt(a, b, x, y);
    }
  }

  // --- Bursts --------------------------------------------------------------

  // Because the generator has a constant term, no shift ever loses a non-zero
  // remainder.
  lemma ShiftInjective(c: bv16)
    ensures Shift(c) == 0 <==> c == 0
  {
  }

  lemma MixZero(c: bv16)
    ensures Mix(c, 0) == c
  {
  }

  lemma FeedZero(c: bv16, b: bv8)
    ensures Feed(c, b) == 0 <==> Mix(c, b) == 0
  {
    forall c ensures Shift(c) == 0 <==> c == 0 { ShiftInjective(c); }
    IterateZero(Shift, 0, Mix(c, b), 8);
  }

  function Shift8(c: bv16): bv16 {
    Shift(Shift(Shift(Shift(Shift(Shift(Shift(Shift(c))))))))
  }

  lemma EightShifts(c: bv16)
    ensures Iterate(Shift, c, 8) == Shift8(c)
  {
    IterateEight(Shift, c);
  }

  // Three bytes whose ones lie within 16 consecutive bits, starting r bits
  // into the first, leave a remainder unless they are all zero.
  lemma WindowRemainder(r: bv8, x: bv8, y: bv8, z: bv8)
    requires r < 8
    requires x & !(0xFF >> r) == 0 && z & (0xFF >> r) == 0
    requires Feed(Feed(Feed(0, x), y), z) == 0
    ensures x == 0 && y == 0 && z == 0
  {
    var c1 := Feed(0, x);
    var c2 := Feed(c1, y);
    EightShifts(Mix(0, x));
    EightShifts(Mix(c1, y));
    FeedZero(c2, z);
    WindowSteps(r, x, y, z, c1, c2);
  }

  lemma WindowSteps(r: bv8, x: bv8, y: bv8, z: bv8, c1: bv16, c2: bv16)
    requires r < 8
    requires x & !(0xFF >> r) == 0 && z & (0xFF >> r) == 0
    requires c1 == Shift8(Mix(0, x)) && c2 == Shift8(Mix(c1, y)) && Mix(c2, z) == 0
    ensures x == 0 && y == 0 && z == 0
  {
  }

  // Bit k of a byte, most significant first: the order in which the division
  // consumes them.
  function BitMask(k: nat): bv8
    requires k < 8
  {
    match k
    case 0 => 0x80 case 1 => 0x40 case 2 => 0x20 case 3 => 0x10
    case 4 => 0x08 case 5 => 0x04 case 6 => 0x02 case _ => 0x01
  }

  predicate BitOf(b: bv8, k: nat)
    requires k < 8
  {
    b & BitMask(k) != 0
  }

  predicate Bit(s: seq<bv8>, i: nat)
    requires i < 8 * |s|
  {
    BitOf(s[i / 8], i % 8)
  }

  // a and b differ in nothing but the 16 consecutive bits from p on.
  ghost predicate DifferWithin(a: seq<bv8>, b: seq<bv8>, p: nat) {
    && |a| == |b|
    && forall i: nat | i < 8 * |a| && !(p <= i < p + 16) :: Bit(a, i) == Bit(b, i)
  }

  lemma XorByteZero(a: bv8, b: bv8)
    ensures PlusByte(a, b) == 0 <==> a == b
  {
  }

  lemma XorZeroEqual(a: bv16, b: bv16)
    ensures Plus(a, b) == 0 <==> a == b
  {
  }

  lemma AgreeOnMask(a: bv8, b: bv8, m: bv8, k: nat)
    requires k < 8 && BitOf(a, k) == BitOf(b, k) && PlusByte(a, b) & m == 0
    ensures PlusByte(a, b) & (m | BitMask(k)) == 0
  {
  }

  // The first k bits agree.
  lemma HeadAgrees(a: bv8, b: bv8, r: nat)
    requires r < 8 && forall k: nat | k < r :: BitOf(a, k) == BitOf(b, k)
    ensures PlusByte(a, b) & HeadMask(r) == 0
  {
    if r > 0 {
      HeadAgrees(a, b, r - 1);
      AgreeOnMask(a, b, HeadMask(r - 1), r - 1);
    }
  }

  lemma TailAgrees(a: bv8, b: bv8, r: nat)
    requires r < 8 && forall k: nat | r <= k < 8 :: BitOf(a, k) == BitOf(b, k)
    ensures PlusByte(a, b) & TailMask(r) == 0
    decreases 8 - r
  {
    if r < 7 {
      TailAgrees(a, b, r + 1);
      AgreeOnMask(a, b, TailMask(r + 1), r);
    } else {
      AgreeOnMask(a, b, 0, 7);
    }
  }

  function HeadMask(r: nat): bv8
    requires r < 8
  {
    if r == 0 then 0 else HeadMask(r - 1) | BitMask(r - 1)
  }

  function TailMask(r: nat): bv8
    requires r < 8
    decreases 8 - r
  {
    if r == 7 then BitMask(7) else TailMask(r + 1) | BitMask(r)
  }

  lemma Masks(r: nat) returns (v: bv8)
    requires r < 8
    ensures v < 8 && HeadMask(r) == !(0xFF >> v) && TailMask(r) == 0xFF >> v
  {
    assert HeadMask(0) == 0 && HeadMask(1) == 0x80 && HeadMask(2) == 0xC0 && HeadMask(3) == 0xE0;
    assert HeadMask(4) == 0xF0 && HeadMask(5) == 0xF8 && HeadMask(6) == 0xFC && HeadMask(7) == 0xFE;
    assert TailMask(7) == 0x01 && TailMask(6) == 0x03 && TailMask(5) == 0x07 && TailMask(4) == 0x0F;
    assert TailMask(3) == 0x1F && TailMask(2) == 0x3F && TailMask(1) == 0x7F && TailMask(0) == 0xFF;
    v := match r
      case 0 => 0 case 1 => 1 case 2 => 2 case 3 => 3
      case 4 => 4 case 5 => 5 case 6 => 6 case _ => 7;
  }

  lemma ByteAgrees(a: bv8, b: bv8)
    requires forall k: nat | k < 8 :: BitOf(a, k) == BitOf(b, k)
    ensures a == b
  {
    TailAgrees(a, b, 0);
    var v := Masks(0);
    XorByteZero(a, b);
  }

  // No burst of at most 16 bits goes unnoticed.
  lemma BurstChangesSum(a: seq<bv8>, b: seq<bv8>, p: nat)
    requires DifferWithin(a, b, p) && a != b
    ensures Sum(a) != Sum(b)
  {
    if Sum(a) == Sum(b) {
      var e := Zip(PlusByte, a, b);
      XorOfSums(a, b);
      XorZeroEqual(Sum(a), Sum(b));
      WindowBytes(a, b, p);
      NoRemainderNoError(e, p / 8, p % 8);
      forall i | 0 <= i < |a| ensures a[i] == b[i] {
        XorByteZero(a[i], b[i]);
      }
      assert false;
    }
  }

  lemma XorOfSums(a: seq<bv8>, b: seq<bv8>)
    requires |a| == |b|
    ensures Sum(Zip(PlusByte, a, b)) == Plus(Sum(a), Sum(b))
  {
    FeedLinear();
    FoldLinear(Plus, PlusByte, Feed, 0, 0, a, b);
    assert Plus(0, 0) == 0;
  }

  // Zero outside bytes k to k + 2, and no more than 16 bits wide from bit r of
  // byte k on.
  ghost predicate InWindow(e: seq<bv8>, k: nat, r: nat)
    requires r < 8
  {
    && (forall i | 0 <= i < |e| :: i < k || k + 2 < i ==> e[i] == 0)
    && (k < |e| ==> e[k] & HeadMask(r) == 0)
    && (k + 2 < |e| ==> e[k + 2] & TailMask(r) == 0)
  }

  lemma WindowBytes(a: seq<bv8>, b: seq<bv8>, p: nat)
    requires DifferWithin(a, b, p)
    ensures InWindow(Zip(PlusByte, a, b), p / 8, p % 8)
  {
    var k, r := p / 8, p % 8;
    forall i | 0 <= i < |a| && (i < k || k + 2 < i) ensures PlusByte(a[i], b[i]) == 0 {
      forall j: nat | j < 8 ensures BitOf(a[i], j) == BitOf(b[i], j) { BitAt(a, i, j); BitAt(b, i, j); }
      ByteAgrees(a[i], b[i]);
      XorByteZero(a[i], b[i]);
    }
    if k < |a| {
      forall j: nat | j < r ensures BitOf(a[k], j) == BitOf(b[k], j) { BitAt(a, k, j); BitAt(b, k, j); }
      HeadAgrees(a[k], b[k], r);
    }
    if k + 2 < |a| {
      var x, y := a[k + 2], b[k + 2];
      forall j: nat | r <= j < 8 ensures BitOf(x, j) == BitOf(y, j) { BitAt(a, k + 2, j); BitAt(b, k + 2, j); }
      TailAgrees(x, y, r);
    }
  }

  lemma BitAt(s: seq<bv8>, i: nat, j: nat)
    requires i < |s| && j < 8
    ensures Bit(s, 8 * i + j) == BitOf(s[i], j)
  {
    assert (8 * i + j) / 8 == i && (8 * i + j) % 8 == j;
  }

  lemma NoRemainderNoError(e: seq<bv8>, k: nat, r: nat)
    requires r < 8 && InWindow(e, k, r) && Sum(e) == 0
    ensures forall i | 0 <= i < |e| :: e[i] == 0
  {
    if k < |e| {
      // Zero bytes at the end make sure that the window has all three.
      var f := e + [0, 0];
      FoldAppend(Feed, 0, e, [0, 0]);
      ZeroTail(Sum(e), [0, 0]);
      assert f[k] == e[k];
      ZeroAnd(TailMask(r));
      SplitAroundWindow(f, k);
      var v := Masks(r);
      WindowRemainder(v, f[k], f[k + 1], f[k + 2]);
      forall i | 0 <= i < |e| ensures e[i] == 0 { assert f[i] == e[i]; }
    }
  }

  lemma SplitAroundWindow(f: seq<bv8>, k: nat)
    requires k + 2 < |f| && Sum(f) == 0
    requires forall i | 0 <= i < |f| :: i < k || k + 2 < i ==> f[i] == 0
    ensures Feed(Feed(Feed(0, f[k]), f[k + 1]), f[k + 2]) == 0
  {
    var head, mid, rest := f[..k], f[k..k + 3], f[k + 3..];
    assert f == head + (mid + rest);
    FoldAppend(Feed, 0, head, mid + rest);
    ZeroTail(0, head);
    FoldAppend(Feed, 0, mid, rest);
    ZeroTail(From(0, mid), rest);
    FoldThree(Feed, 0, mid);
  }

  lemma ZeroAnd(m: bv8)
    ensures (0 as bv8) & m == 0
  {
  }

  lemma ZeroTail(c: bv16, z: seq<bv8>)
    requires forall i :: 0 <= i < |z| ==> z[i] == 0
    ensures From(c, z) == 0 <==> c == 0
  {
    forall x ensures Feed(x, 0) == 0 <==> x == 0 { FeedZero(x, 0); MixZero(x); }
    FoldZero(Feed, 0, 0, c, z);
  }

  // Bytes 2 and 3 intact: a burst beyond them leaves bytes 0 and 1 intact too.
  lemma DamagedTail(x: seq<bv8>, y: seq<bv8>, p: nat)
    requires DifferWithin(x, y, p) && |x| >= 5 && x != y && x[2..4] == y[2..4]
    ensures x[..2] == y[..2] <==> Sum(x[2..]) != Sum(y[2..])
  {
    if x[2..] == y[2..] {
      assert x == x[..2] + x[2..] && y == y[..2] + y[2..];
    } else {
      assert x[2] == x[2..4][0] && x[3] == x[2..4][1];
      assert y[2] == y[2..4][0] && y[3] == y[2..4][1];
      var i :| 2 <= i < |x| && x[i] != y[i];
      DamagedByte(x, y, p, i);
      if x[0] != y[0] { DamagedByte(x, y, p, 0); }
      if x[1] != y[1] { DamagedByte(x, y, p, 1); }
      assert x[0] == y[0] && x[1] == y[1];
      TailDiffers(x, y, p);
      BurstChangesSum(x[2..], y[2..], p - 16);
    }
  }

  lemma TailDiffers(x: seq<bv8>, y: seq<bv8>, p: nat)
    requires DifferWithin(x, y, p) && |x| >= 2 && p >= 16
    ensures DifferWithin(x[2..], y[2..], p - 16)
  {
    var a, b := x[2..], y[2..];
    forall j: nat | j < 8 * |a| && !(p - 16 <= j < p) ensures Bit(a, j) == Bit(b, j) {
      assert (j + 16) / 8 == j / 8 + 2 && (j + 16) % 8 == j % 8;
      assert Bit(x, j + 16) == Bit(y, j + 16);
    }
  }

  lemma DamagedByte(x: seq<bv8>, y: seq<bv8>, p: nat, i: nat)
    requires DifferWithin(x, y, p) && i < |x| && x[i] != y[i]
    ensures p < 8 * i + 8 && 8 * i < p + 16
  {
    if !(p < 8 * i + 8 && 8 * i < p + 16) {
      forall j: nat | j < 8 ensures BitOf(x[i], j) == BitOf(y[i], j) {
        BitAt(x, i, j);
        BitAt(y, i, j);
      }
      ByteAgrees(x[i], y[i]);
    }
  }

  // --- The check value ---------------------------------------------------------

  lemma FirstThree()
    ensures From(0x0000, [0x31, 0x32, 0x33]) == 0x9752
  {
    IterateEight(Shift, Mix(0x0000, 0x31));
    IterateEight(Shift, Mix(0x2672, 0x32));
    IterateEight(Shift, Mix(0x20B5, 0x33));
    FoldThree(Feed, 0x0000, [0x31, 0x32, 0x33]);
  }

  lemma MiddleThree()
    ensures From(0x9752, [0x34, 0x35, 0x36]) == 0x20E4
  {
    IterateEight(Shift, Mix(0x9752, 0x34));
    IterateEight(Shift, Mix(0xD789, 0x35));
    IterateEight(Shift, Mix(0x546C, 0x36));
    FoldThree(Feed, 0x9752, [0x34, 0x35, 0x36]);
  }

  lemma LastThree()
    ensures From(0x20E4, [0x37, 0x38, 0x39]) == 0x31C3
  {
    IterateEight(Shift, Mix(0x20E4, 0x37));
    IterateEight(Shift, Mix(0x86D6, 0x38));
    IterateEight(Shift, Mix(0x9015, 0x39));
    FoldThree(Feed, 0x20E4, [0x37, 0x38, 0x39]);
  }

  // The remainder of the nine digits by which a CRC is known.
  lemma CheckValue()
    ensures Sum([0x31, 0x32, 0x33, 0x34, 0x35, 0x36, 0x37, 0x38, 0x39]) == 0x31C3
  {
    var a, b, c: seq<bv8> := [0x31, 0x32, 0x33], [0x34, 0x35, 0x36], [0x37, 0x38, 0x39];
    FirstThree();
    MiddleThree();
    LastThree();
    FoldAppend(Feed, 0, a, b + c);
    FoldAppend(Feed, 0x9752, b, c);
    assert a + (b + c) == [0x31, 0x32, 0x33, 0x34, 0x35, 0x36, 0x37, 0x38, 0x39];
  }
}
