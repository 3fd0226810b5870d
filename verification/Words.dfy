/**
 * 64-bit words as the synthetic backend combines them: exclusive or, shifts, multiplication
 * with wrap-around, and the hexadecimal text of a handle. What identities are made of is
 * shown injective on the range the backend uses it on.
 */
module Words {
  import opened Bytes
  import opened Records

  function Power(n: nat): (p: nat)
    ensures p > 0
  {
    if n == 0 then 1 else 2 * Power(n - 1)
  }

  /** The `n` lowest bits of `v`, least significant first. */
  function Bits(v: nat, n: nat): (s: seq<bool>)
    ensures |s| == n
  {
    if n == 0 then [] else [v % 2 == 1] + Bits(v / 2, n - 1)
  }

  function FromBits(s: seq<bool>): nat {
    if s == [] then 0 else (if s[0] then 1 else 0) + 2 * FromBits(s[1..])
  }

  /** `a ^ b` on 64-bit words. */
  function Xor64(a: nat, b: nat): (r: nat)
    ensures r < WORD_LIMIT
  {
    var s := XorBits(Bits(a, 64), Bits(b, 64));
    BitsOfFromBits(s);
    SixtyFour();
    FromBits(s)
  }

  /** `v << n` on 64-bit words. */
  function Shl64(v: nat, n: nat): (r: nat)
    ensures r < WORD_LIMIT
  {
    v * Power(n) % WORD_LIMIT
  }

  /** `v >> n` on 64-bit words. */
  function Shr64(v: nat, n: nat): nat {
    if n == 0 then v else Shr64(v / 2, n - 1)
  }

  /** One round of the backend's pseudo-random generator. */
  function XorShift64(s: nat): nat {
    var x := Xor64(s, Shl64(s, 13));
    var y := Xor64(x, Shr64(x, 7));
    Xor64(y, Shl64(y, 17))
  }

  lemma {:induction false} PowerSum(a: nat, b: nat)
    ensures Power(a + b) == Power(a) * Power(b)
  {
    if a > 0 {
      PowerSum(a - 1, b);
    }
  }

  lemma SixtyFour()
    ensures Power(64) == WORD_LIMIT
  {
    assert Power(4) == 16;
    PowerSum(4, 4);
    PowerSum(8, 8);
    PowerSum(16, 16);
    PowerSum(32, 32);
  }

  lemma {:induction false} BitsOfFromBits(s: seq<bool>)
    ensures FromBits(s) < Power(|s|)
    ensures Bits(FromBits(s), |s|) == s
  {
    if s != [] {
      BitsOfFromBits(s[1..]);
      assert FromBits(s) / 2 == FromBits(s[1..]);
      assert s == [s[0]] + s[1..];
    }
  }

  lemma {:induction false} FromBitsOfBits(v: nat, n: nat)
    requires v < Power(n)
    ensures FromBits(Bits(v, n)) == v
  {
    if n > 0 {
      FromBitsOfBits(v / 2, n - 1);
      assert Bits(v, n)[1..] == Bits(v / 2, n - 1);
    }
  }

  lemma XorBitsInjective(a: seq<bool>, b: seq<bool>, k: seq<bool>)
    requires |a| == |b| == |k| && (XorBits(k, a) == XorBits(k, b) || XorBits(a, k) == XorBits(b, k))
    ensures a == b
  {
    forall i | 0 <= i < |a| ensures a[i] == b[i] {
      assert XorBits(k, a)[i] == (k[i] != a[i]) && XorBits(k, b)[i] == (k[i] != b[i]);
      assert XorBits(a, k)[i] == (a[i] != k[i]) && XorBits(b, k)[i] == (b[i] != k[i]);
    }
  }

  /** Exclusive or with a fixed word loses nothing. */
  lemma XorInjective(a: nat, b: nat, k: nat)
    requires a < WORD_LIMIT && b < WORD_LIMIT
    ensures Xor64(k, a) == Xor64(k, b) <==> a == b
    ensures Xor64(a, k) == Xor64(b, k) <==> a == b
  {
    hide Bits, FromBits, Power, XorBits;
    SixtyFour();
    var x, y, c := Bits(a, 64), Bits(b, 64), Bits(k, 64);
    FromBitsOfBits(a, 64);
    FromBitsOfBits(b, 64);
    BitsOfFromBits(XorBits(c, x));
    BitsOfFromBits(XorBits(c, y));
    BitsOfFromBits(XorBits(x, c));
    BitsOfFromBits(XorBits(y, c));
    if Xor64(k, a) == Xor64(k, b) || Xor64(a, k) == Xor64(b, k) {
      assert XorBits(c, x) == XorBits(c, y) || XorBits(x, c) == XorBits(y, c);
      XorBitsInjective(x, y, c);
    }
  }

  // ---- region identities -----------------------------------------------------------

  const GOLDEN: nat := 0x9E37_79B9_7F4A_7C15
  const OPAQUE_MASK: nat := 0xA5A5_A5A5_A5A5_A5A5
  const ROTATION_MASK: nat := 0x0101_0101_0101_0101

  /** The number of registrations before the shifted sequence number wraps. */
  const SEQUENCE_LIMIT: nat := 0x200_0000_0000_0000

  function Region(seed: nat, number: nat): (r: nat)
    ensures r < WORD_LIMIT
  {
    Xor64(Xor64(seed, Shl64(number, 7)), GOLDEN)
  }

  lemma RegionInjective(seed: nat, a: nat, b: nat)
    requires a < SEQUENCE_LIMIT && b < SEQUENCE_LIMIT
    ensures Region(seed, a) == Region(seed, b) <==> a == b
  {
    hide Xor64;
    ShiftSeven(a);
    ShiftSeven(b);
    XorInjective(Shl64(a, 7), Shl64(b, 7), seed);
    XorInjective(Xor64(seed, Shl64(a, 7)), Xor64(seed, Shl64(b, 7)), GOLDEN);
  }

  lemma ShiftSeven(n: nat)
    requires n < SEQUENCE_LIMIT
    ensures Shl64(n, 7) == 128 * n
  {
    hide Power;
    SevenBits();
  }

  lemma SevenBits()
    ensures Power(7) == 128
  {
  }

  /** At the limit the shift wraps around, and the first region is issued again. */
  lemma RegionWraps(seed: nat)
    ensures Region(seed, SEQUENCE_LIMIT + 1) == Region(seed, 1)
  {
    hide Xor64, Power;
    assert Power(7) == 128 by { SevenBits(); }
    assert Shl64(SEQUENCE_LIMIT + 1, 7) == Shl64(1, 7);
  }

  function RemoteKeyId(region: nat): nat {
    (region * 3 + 1) % WORD_LIMIT
  }

  function LocalKeyId(region: nat): nat {
    (region * 3 + 2) % WORD_LIMIT
  }

  /** Three is invertible modulo 2^64, so the multiplication does not merge regions. */
  lemma KeyIdsInjective(a: nat, b: nat)
    requires a < WORD_LIMIT && b < WORD_LIMIT
    ensures RemoteKeyId(a) == RemoteKeyId(b) <==> a == b
    ensures LocalKeyId(a) == LocalKeyId(b) <==> a == b
  {
    Tripled(a, b, 1);
    Tripled(a, b, 2);
  }

  lemma Tripled(a: nat, b: nat, c: nat)
    requires a < WORD_LIMIT && b < WORD_LIMIT && c < WORD_LIMIT
    ensures (a * 3 + c) % WORD_LIMIT == (b * 3 + c) % WORD_LIMIT <==> a == b
  {
  }

  // ---- handles ----------------------------------------------------------------------

  function HexDigit(d: nat): (b: byte)
    requires d < 16
  {
    if d < 10 then 48 + d else 87 + d
  }

  /** Lower-case hexadecimal without leading zeros. */
  function Hex(n: nat): (t: Text)
    ensures t != []
  {
    if n < 16 then [HexDigit(n)] else Hex(n / 16) + [HexDigit(n % 16)]
  }

  function DigitOf(b: byte): int {
    if b < 58 then b - 48 else b - 87
  }

  function HexValue(t: Text): int {
    if t == [] then 0 else 16 * HexValue(t[..|t| - 1]) + DigitOf(t[|t| - 1])
  }

  lemma {:induction false} HexInverse(n: nat)
    ensures HexValue(Hex(n)) == n
  {
    if n < 16 {
      assert HexValue([]) == 0;
      assert [HexDigit(n)][..0] == [];
    } else {
      HexInverse(n / 16);
      var t := Hex(n / 16) + [HexDigit(n % 16)];
      assert t[..|t| - 1] == Hex(n / 16);
    }
  }

  const SYN: Text := [115, 121, 110, 45]

  /** "syn-" and the region in hexadecimal. */
  function HandleOf(region: nat): (t: Text)
    ensures t != []
  {
    SYN + Hex(region)
  }

  lemma HandleInjective(a: nat, b: nat)
    ensures HandleOf(a) == HandleOf(b) <==> a == b
  {
    if HandleOf(a) == HandleOf(b) {
      assert HandleOf(a)[4..] == Hex(a) && HandleOf(b)[4..] == Hex(b);
      HexInverse(a);
      HexInverse(b);
    }
  }

  /** The handle given to the `number`-th registration of a backend. */
  function HandleAt(seed: nat, number: nat): (t: Text)
    ensures t != []
  {
    HandleOf(Region(seed, number))
  }

  lemma HandleAtInjective(seed: nat, a: nat, b: nat)
    requires a < SEQUENCE_LIMIT && b < SEQUENCE_LIMIT
    ensures HandleAt(seed, a) == HandleAt(seed, b) <==> a == b
  {
    HandleInjective(Region(seed, a), Region(seed, b));
    RegionInjective(seed, a, b);
  }

  // ---- known answers ------------------------------------------------------------------

  /** Exclusive or, digit by digit. */
  function XorDigits(a: nat, b: nat, n: nat): nat {
    if n == 0 then 0 else (a + b) % 2 + 2 * XorDigits(a / 2, b / 2, n - 1)
  }

  lemma {:induction false} XorDigitsExact(a: nat, b: nat, n: nat)
    ensures FromBits(XorBits(Bits(a, n), Bits(b, n))) == XorDigits(a, b, n)
    decreases n
  {
    if n > 0 {
      XorDigitsExact(a / 2, b / 2, n - 1);
      var x := XorBits(Bits(a, n), Bits(b, n));
      assert x[1..] == XorBits(Bits(a / 2, n - 1), Bits(b / 2, n - 1));
      assert x[0] == (a % 2 != b % 2);
    }
  }

  lemma {:induction false} XorDigitsZero(b: nat, n: nat)
    requires b < Power(n)
    ensures XorDigits(0, b, n) == b == XorDigits(b, 0, n)
  {
    if n > 0 {
      XorDigitsZero(b / 2, n - 1);
    }
  }

  /** Four digits at a time. */
  lemma FourDigits(a: nat, b: nat, n: nat)
    ensures XorDigits(a, b, n + 4)
         == (a + b) % 2 + 2 * ((a / 2 + b / 2) % 2) + 4 * ((a / 2 / 2 + b / 2 / 2) % 2) + 8 * ((a / 2 / 2 / 2 + b / 2 / 2 / 2) % 2)
            + 16 * XorDigits(a / 2 / 2 / 2 / 2, b / 2 / 2 / 2 / 2, n)
  {
    assert XorDigits(a / 2, b / 2, n + 3) == (a / 2 + b / 2) % 2 + 2 * XorDigits(a / 2 / 2, b / 2 / 2, n + 2);
    assert XorDigits(a / 2 / 2, b / 2 / 2, n + 2)
        == (a / 2 / 2 + b / 2 / 2) % 2 + 2 * XorDigits(a / 2 / 2 / 2, b / 2 / 2 / 2, n + 1);
  }

  lemma KnownDigits()
    ensures XorDigits(0, 0x80, 64) == 0x80 && XorDigits(0x80, GOLDEN, 64) == 0x9E37_79B9_7F4A_7C95
  {
    hide XorDigits, Power;
    SixtyFour();
    XorDigitsZero(0x80, 64);
    FourDigits(0x80, GOLDEN, 60);
    FourDigits(0x8, 0x9E3_779B_97F4_A7C1, 56);
    PowerSum(56, 8);
    EightDigits();
    XorDigitsZero(0x9E_3779_B97F_4A7C, 56);
  }

  lemma EightDigits()
    ensures Power(8) == 256
  {
  }

  /** The region of the first registration of a backend with seed zero, and its key identities. */
  lemma KnownRegion()
    ensures Region(0, 1) == 0x9E37_79B9_7F4A_7C95
    ensures RemoteKeyId(Region(0, 1)) == 0xDAA6_6D2C_7DDF_75C0 && LocalKeyId(Region(0, 1)) == 0xDAA6_6D2C_7DDF_75C1
  {
    hide XorDigits, Bits, FromBits, Power;
    SevenBits();
    KnownDigits();
    XorDigitsExact(0, Shl64(1, 7), 64);
    XorDigitsExact(Xor64(0, Shl64(1, 7)), GOLDEN, 64);
  }
}
