/**
 * The checksum as polynomial division. Polynomials over the field of two elements are
 * written as their coefficients, highest power first. The checksum of a message is the
 * complement of the remainder of dividing it, 32 zeros appended and its first 32
 * coefficients complemented, by the generator of section 3.2.9 of IEEE 802.3.
 */
module Generator {
  import opened Bytes
  import opened Crc32

  /** The generator is x^32 and these powers of x. */
  const EXPONENTS: set<nat> := {26, 23, 22, 16, 12, 11, 10, 8, 7, 5, 4, 2, 1, 0}

  /** The generator without its leading term. */
  function Tail(): (t: seq<bool>)
    ensures |t| == 32
  {
    seq(32, i requires 0 <= i < 32 => 31 - i in EXPONENTS)
  }

  function Repeat(b: bool, n: nat): (z: seq<bool>)
    ensures |z| == n && forall i :: 0 <= i < n ==> z[i] == b
  {
    seq(n, i requires 0 <= i < n => b)
  }

  function AddFront(p: seq<bool>, t: seq<bool>): (r: seq<bool>)
    requires |t| <= |p|
    ensures |r| == |p|
    ensures forall i :: 0 <= i < |p| ==> r[i] == if i < |t| then p[i] != t[i] else p[i]
  {
    XorBits(p[..|t|], t) + p[|t|..]
  }

  // ---- division -----------------------------------------------------------------------------

  /** Long division: the leading term is cancelled by a multiple of the generator, or is zero already. */
  function Remainder(p: seq<bool>): (r: seq<bool>)
    requires |p| >= 32
    ensures |r| == 32
    decreases |p|
  {
    if |p| == 32 then p else Remainder(if p[0] then AddFront(p[1..], Tail()) else p[1..])
  }

  /** The product of `q` and the generator. */
  function Times(q: seq<bool>): (p: seq<bool>)
    ensures |p| == |q| + 32
  {
    if q == [] then Repeat(false, 32) else
      [q[0]] + if q[0] then AddFront(Times(q[1..]), Tail()) else Times(q[1..])
  }

  /** `p` is `q` times the generator plus `r`. */
  predicate Divides(p: seq<bool>, q: seq<bool>, r: seq<bool>)
    requires |p| == |q| + 32 && |r| == 32
  {
    p == XorBits(Times(q), Repeat(false, |q|) + r)
  }

  /** Cancelling the leading term of `p` takes off the leading term of the quotient. */
  lemma Cancelled(p: seq<bool>, q: seq<bool>, r: seq<bool>)
    requires |p| == |q| + 32 && |r| == 32 && q != []
    ensures var p' := if p[0] then AddFront(p[1..], Tail()) else p[1..];
            Divides(p, q, r) <==> p[0] == q[0] && Divides(p', q[1..], r)
  {
    hide Tail;
    var t, z, z' := Times(q[1..]), Repeat(false, |q|) + r, Repeat(false, |q| - 1) + r;
    assert z == [false] + z';
    XorTail(p, Times(q), z);
    Sums(p[1..], t, z', Tail());
    assert Times(q)[1..] == if q[0] then AddFront(t, Tail()) else t;
  }

  lemma XorTail(p: seq<bool>, t: seq<bool>, z: seq<bool>)
    requires |p| == |t| == |z| > 0 && !z[0]
    ensures p == XorBits(t, z) <==> p[0] == t[0] && p[1..] == XorBits(t[1..], z[1..])
  {
    var x := XorBits(t, z);
    assert x[0] == t[0] && x[1..] == XorBits(t[1..], z[1..]);
    assert p == [p[0]] + p[1..] && x == [x[0]] + x[1..];
  }

  /** Adding the same at the front of both sides. */
  lemma Sums(p: seq<bool>, t: seq<bool>, z: seq<bool>, g: seq<bool>)
    requires |p| == |t| == |z| >= |g|
    ensures p == XorBits(AddFront(t, g), z) <==> AddFront(p, g) == XorBits(t, z)
  {
    var x, y := XorBits(AddFront(t, g), z), XorBits(t, z);
    forall i | 0 <= i < |p| ensures p[i] == x[i] <==> AddFront(p, g)[i] == y[i] {
    }
    if AddFront(p, g) == y {
      assert p == x;
    }
    if p == x {
      assert AddFront(p, g) == y;
    }
  }

  /** Long division gives the remainder: the one polynomial that differs by a multiple of the generator. */
  lemma {:induction false} RemainderUnique(p: seq<bool>, q: seq<bool>, r: seq<bool>)
    requires |p| == |q| + 32 && |r| == 32 && Divides(p, q, r)
    ensures r == Remainder(p)
    decreases |q|
  {
    hide Divides, AddFront;
    if q == [] {
      Undivided(p, r);
    } else {
      Cancelled(p, q, r);
      RemainderUnique(if p[0] then AddFront(p[1..], Tail()) else p[1..], q[1..], r);
    }
  }

  lemma Undivided(p: seq<bool>, r: seq<bool>)
    requires |p| == 32 == |r|
    ensures Divides(p, [], r) <==> p == r
  {
    var x := XorBits(Times([]), Repeat(false, 0) + r);
    assert x == r;
  }

  lemma {:induction false} Quotient(p: seq<bool>) returns (q: seq<bool>)
    requires |p| >= 32
    ensures |q| == |p| - 32 && Divides(p, q, Remainder(p))
    decreases |p|
  {
    hide Divides, AddFront;
    if |p| == 32 {
      q := [];
      Undivided(p, p);
    } else {
      var p' := if p[0] then AddFront(p[1..], Tail()) else p[1..];
      var q' := Quotient(p');
      q := [p[0]] + q';
      assert q[1..] == q';
      Cancelled(p, q, Remainder(p));
    }
  }

  lemma RemainderExact(p: seq<bool>, r: seq<bool>)
    requires |p| >= 32 && |r| == 32
    ensures r == Remainder(p) <==> exists q :: |q| == |p| - 32 && Divides(p, q, r)
  {
    hide Divides;
    if r == Remainder(p) {
      var q := Quotient(p);
    }
    if q :| |q| == |p| - 32 && Divides(p, q, r) {
      RemainderUnique(p, q, r);
    }
  }

  // ---- the register holds the remainder --------------------------------------------------------

  predicate Odd(c: bv32) {
    c & 1 == 1
  }

  function Half(c: bv32): bv32 {
    c >> 1
  }

  /** The register's coefficients: its low bit is the highest power. */
  function Coefficients(c: bv32, n: nat): (p: seq<bool>)
    ensures |p| == n
  {
    if n == 0 then [] else [Odd(c)] + Coefficients(Half(c), n - 1)
  }

  function Halved(c: bv32, n: nat): bv32 {
    if n == 0 then c else Halved(Half(c), n - 1)
  }

  lemma {:induction false} OneMore(c: bv32, n: nat)
    ensures Coefficients(c, n + 1) == Coefficients(c, n) + [Odd(Halved(c, n))]
    decreases n
  {
    hide Odd, Half;
    if n > 0 {
      OneMore(Half(c), n - 1);
      assert Coefficients(c, n + 1) == [Odd(c)] + Coefficients(Half(c), n);
    }
  }

  predicate Under(c: bv32, m: bv32) {
    c & m == c
  }

  lemma {:induction false} HalvedAway(c: bv32, n: nat)
    requires n <= 32 && Under(c, Low(n))
    ensures Halved(c, n) == 0
    decreases n
  {
    hide Half, Low, Under;
    if n > 0 {
      HalfUnder(c, n);
      HalvedAway(Half(c), n - 1);
    } else {
      NothingLow(c);
    }
  }

  lemma HalfUnder(c: bv32, n: nat)
    requires 0 < n <= 32 && Under(c, Low(n))
    ensures Under(Half(c), Low(n - 1))
  {
    hide Low, Under, Half;
    LowHalf(n);
    HalfMask(c, Low(n));
  }

  lemma LowHalf(n: nat)
    requires 0 < n <= 32
    ensures Half(Low(n)) == Low(n - 1)
  {
    hide Low;
    LowShift(n);
  }

  lemma HalfMask(c: bv32, m: bv32)
    requires Under(c, m)
    ensures Under(Half(c), Half(m))
  {
  }

  lemma NothingLow(c: bv32)
    ensures Under(c, Low(0)) ==> c == 0
  {
    assert c & 0 == 0;
  }

  lemma AllHalved(c: bv32)
    ensures Halved(c, 32) == 0
  {
    hide Halved, Low;
    AllLow(c);
    HalvedAway(c, 32);
  }

  lemma AllLow(c: bv32)
    ensures Under(c, Low(32))
  {
    LowThirtyOne();
    LowStep(31);
    assert c & 0xFFFF_FFFF == c;
  }

  lemma LowStep(n: nat)
    ensures Low(n + 1) == (Low(n) << 1) | 1
  {
  }

  lemma XorParts(a: bv32, b: bv32)
    ensures Odd(Xor(a, b)) == (Odd(a) != Odd(b)) && Half(Xor(a, b)) == Xor(Half(a), Half(b))
  {
  }

  lemma {:induction false} CoefficientsXor(a: bv32, b: bv32, n: nat)
    ensures Coefficients(Xor(a, b), n) == XorBits(Coefficients(a, n), Coefficients(b, n))
    decreases n
  {
    hide Odd, Half, Xor;
    if n > 0 {
      XorParts(a, b);
      CoefficientsXor(Half(a), Half(b), n - 1);
    }
  }

  lemma Nibble(c: bv32, n: nat)
    ensures Coefficients(c, n + 4) == [c & 1 == 1, c & 2 == 2, c & 4 == 4, c & 8 == 8] + Coefficients(c >> 4, n)
  {
    Peeled(c);
    FourMore(c, n);
  }

  lemma FourMore(c: bv32, n: nat)
    ensures Coefficients(c, n + 4)
         == [Odd(c), Odd(Half(c)), Odd(Half(Half(c))), Odd(Half(Half(Half(c))))] + Coefficients(Half(Half(Half(Half(c)))), n)
  {
    hide Odd, Half;
    assert Coefficients(Half(c), n + 3) == [Odd(Half(c))] + Coefficients(Half(Half(c)), n + 2);
    assert Coefficients(Half(Half(c)), n + 2) == [Odd(Half(Half(c)))] + Coefficients(Half(Half(Half(c))), n + 1);
  }

  lemma Peeled(c: bv32)
    ensures Odd(Half(c)) == (c & 2 == 2) && Odd(Half(Half(c))) == (c & 4 == 4) && Odd(Half(Half(Half(c)))) == (c & 8 == 8)
    ensures Half(Half(Half(Half(c)))) == c >> 4
  {
  }

  /** What the shift register adds in is the generator. */
  lemma PolynomialIsGenerator()
    ensures forall i :: 0 <= i < 32 ==> (Coefficients(BitStep(1), 32)[i] <==> 31 - i in EXPONENTS)
  {
    hide Coefficients;
    assert BitStep(1) == 0xEDB8_8320;
    Nibble(0xEDB8_8320, 28);
    Nibble(0xEDB_8832, 24);
    Nibble(0xED_B883, 20);
    Nibble(0xE_DB88, 16);
    Nibble(0xEDB8, 12);
    Nibble(0xEDB, 8);
    Nibble(0xED, 4);
    Nibble(0xE, 0);
  }

  lemma ShiftCoefficients(c: bv32, n: nat)
    requires n == 32
    ensures Coefficients(Half(c), n) == Coefficients(c, n)[1..] + [false] && Coefficients(c, n)[0] == Odd(c)
  {
    hide Odd, Half;
    OneMore(c, n);
    AllHalved(c);
    ZeroIsEven();
    var p := Coefficients(c, n + 1);
    assert p == [Odd(c)] + Coefficients(Half(c), n);
    assert p[1..] == Coefficients(Half(c), n) && p[1..] == Coefficients(c, n)[1..] + [false];
  }

  lemma ZeroIsEven()
    ensures !Odd(0)
  {
  }

  /** Shifting multiplies by x and reduces. */
  lemma BitStepCoefficients(c: bv32)
    ensures var p := Coefficients(c, 32);
            Coefficients(BitStep(c), 32) == if p[0] then AddFront(p[1..] + [false], Tail()) else p[1..] + [false]
  {
    hide Odd, Half, Xor, AddFront, Coefficients, BitStep;
    ShiftCoefficients(c, 32);
    StepParts(c);
    if Odd(c) {
      CoefficientsXor(Half(c), BitStep(1), 32);
      PolynomialIsGenerator();
      assert Coefficients(BitStep(1), 32) == Tail();
    }
  }

  lemma StepParts(c: bv32)
    ensures BitStep(c) == if Odd(c) then Xor(Half(c), BitStep(1)) else Half(c)
  {
    assert BitStep(1) == 0xEDB8_8320;
  }

  // ---- whole messages -----------------------------------------------------------------------------

  /** A register and the message bits still to come: the bits are added 32 places below its own. */
  function Pending(p: seq<bool>, bits: seq<bool>): (d: seq<bool>)
    requires |p| == 32
    ensures |d| == |bits| + 32
  {
    XorBits(p + Repeat(false, |bits|), bits + Repeat(false, 32))
  }

  /** The bit-serial register holds the remainder of what it has been fed. */
  lemma {:induction false} RegisterIsRemainder(c: bv32, bits: seq<bool>)
    ensures Coefficients(FoldBits(c, bits), 32) == Remainder(Pending(Coefficients(c, 32), bits))
    decreases bits
  {
    hide BitStep, Xor, Coefficients;
    if bits == [] {
      assert Pending(Coefficients(c, 32), []) == Coefficients(c, 32);
    } else {
      var c' := Xor(c, Bit(bits[0]));
      FirstAdded(c, bits[0]);
      BitStepCoefficients(c');
      RegisterIsRemainder(BitStep(c'), bits[1..]);
      OneBitOn(Coefficients(c, 32), bits);
    }
  }

  lemma FirstAdded(c: bv32, b: bool)
    ensures var p := Coefficients(c, 32); Coefficients(Xor(c, Bit(b)), 32) == [p[0] != b] + p[1..]
  {
    FirstAddedBy(c, b, 32);
  }

  lemma FirstAddedBy(c: bv32, b: bool, n: nat)
    requires n > 0
    ensures var p := Coefficients(c, n); Coefficients(Xor(c, Bit(b)), n) == [p[0] != b] + p[1..]
  {
    LowBitOnly(c, b);
  }

  lemma LowBitOnly(c: bv32, b: bool)
    ensures Odd(Xor(c, Bit(b))) == (Odd(c) != b) && Half(Xor(c, Bit(b))) == Half(c)
  {
  }

  /** Feeding one bit is one step of the division. */
  lemma OneBitOn(p: seq<bool>, bits: seq<bool>)
    requires |p| == 32 && bits != []
    ensures var lead := p[0] != bits[0];
            var next := if lead then AddFront(p[1..] + [false], Tail()) else p[1..] + [false];
            Remainder(Pending(p, bits)) == Remainder(Pending(next, bits[1..]))
  {
    hide Tail;
    var d := Pending(p, bits);
    var next := if d[0] then AddFront(p[1..] + [false], Tail()) else p[1..] + [false];
    var e := if d[0] then AddFront(d[1..], Tail()) else d[1..];
    assert e == Pending(next, bits[1..]);
  }

  function Complement(p: seq<bool>): (q: seq<bool>)
    ensures |q| == |p| && forall i :: 0 <= i < |p| ==> q[i] == !p[i]
  {
    seq(|p|, i requires 0 <= i < |p| => !p[i])
  }

  /** The dividend: the message times x^32, its first 32 coefficients complemented. */
  function Dividend(bits: seq<bool>): (d: seq<bool>)
    ensures |d| == |bits| + 32
  {
    var m := bits + Repeat(false, 32);
    Complement(m[..32]) + m[32..]
  }

  /** The checksum of a message, with neither the register nor its constants mentioned. */
  lemma ChecksumIsRemainder(s: seq<byte>)
    requires s != []
    ensures Coefficients(Checksum(s), 32) == Complement(Remainder(Dividend(BitsOf(s))))
  {
    hide FoldBytes, FoldBits, Coefficients, Remainder, Xor, BitsOf;
    var bits := BitsOf(s);
    BytesAreBits(ONES, s);
    RegisterIsRemainder(ONES, bits);
    AllOnes(32);
    assert Pending(Repeat(true, 32), bits) == Dividend(bits);
    CoefficientsXor(FoldBits(ONES, bits), ONES, 32);
    assert Checksum(s) == Xor(FoldBits(ONES, bits), ONES);
    assert XorBits(Remainder(Dividend(bits)), Repeat(true, 32)) == Complement(Remainder(Dividend(bits)));
  }

  lemma AllOnes(n: nat)
    requires n == 32
    ensures Coefficients(ONES, n) == Repeat(true, n)
  {
    hide Coefficients;
    Nibble(0xFFFF_FFFF, 28);
    Nibble(0xFFF_FFFF, 24);
    Nibble(0xFF_FFFF, 20);
    Nibble(0xF_FFFF, 16);
    Nibble(0xFFFF, 12);
    Nibble(0xFFF, 8);
    Nibble(0xFF, 4);
    Nibble(0xF, 0);
    assert Coefficients(0, 0) == [] by { NoCoefficients(0); }
  }

  lemma NoCoefficients(c: bv32)
    ensures Coefficients(c, 0) == []
  {
  }

  // ---- a known answer --------------------------------------------------------------------------------

  /** The digits from 1 to 9. */
  const DIGITS: seq<byte> := [49, 50, 51, 52, 53, 54, 55, 56, 57]

  /** One byte fed to the register, worked out. */
  lemma Fed(c: bv32, b: byte, s: seq<byte>, c': bv32)
    requires Steps(Xor(c, Wide(b)), 8) == c'
    ensures FoldBytes(c, [b] + s) == FoldBytes(c', s)
  {
    hide Steps, Xor, Wide;
    assert ([b] + s)[1..] == s;
  }

  lemma OctetsToFive()
    ensures Octet(49) == 0x31 && Octet(50) == 0x32 && Octet(51) == 0x33 && Octet(52) == 0x34 && Octet(53) == 0x35
  {
    assert ToBits(3, 4) == 3;
  }

  lemma OctetsToNine()
    ensures Octet(54) == 0x36 && Octet(55) == 0x37 && Octet(56) == 0x38 && Octet(57) == 0x39
  {
    assert ToBits(3, 4) == 3;
  }

  lemma DigitsWide()
    ensures Wide(49) == 0x31 && Wide(50) == 0x32 && Wide(51) == 0x33 && Wide(52) == 0x34 && Wide(53) == 0x35
    ensures Wide(54) == 0x36 && Wide(55) == 0x37 && Wide(56) == 0x38 && Wide(57) == 0x39
  {
    hide Octet;
    OctetsToFive();
    OctetsToNine();
  }

  lemma FirstDigits()
    ensures Steps(Xor(0xFFFF_FFFF, 0x0000_0031), 8) == 0x7C23_1048
    ensures Steps(Xor(0x7C23_1048, 0x0000_0032), 8) == 0xB0AC_BB32
    ensures Steps(Xor(0xB0AC_BB32, 0x0000_0033), 8) == 0x77B7_9C2D
    ensures Steps(Xor(0x77B7_9C2D, 0x0000_0034), 8) == 0x641C_1F5C
    ensures Steps(Xor(0x641C_1F5C, 0x0000_0035), 8) == 0x340A_C5E3
  {
  }

  lemma LastDigits()
    ensures Steps(Xor(0x340A_C5E3, 0x0000_0036), 8) == 0xF68D_2C9E
    ensures Steps(Xor(0xF68D_2C9E, 0x0000_0037), 8) == 0xAFFC_9660
    ensures Steps(Xor(0xAFFC_9660, 0x0000_0038), 8) == 0x651F_2550
    ensures Steps(Xor(0x651F_2550, 0x0000_0039), 8) == 0x340B_C6D9
  {
  }

  /** The check value published for this checksum. */
  lemma KnownAnswer()
    ensures Checksum(DIGITS) == 0xCBF4_3926 && Checksum([]) == 0
  {
    hide Steps, Xor, Wide, FoldBytes;
    DigitsWide();
    FirstDigits();
    LastDigits();
    Fed(0xFFFF_FFFF, 49, [50, 51, 52, 53, 54, 55, 56, 57], 0x7C23_1048);
    Fed(0x7C23_1048, 50, [51, 52, 53, 54, 55, 56, 57], 0xB0AC_BB32);
    Fed(0xB0AC_BB32, 51, [52, 53, 54, 55, 56, 57], 0x77B7_9C2D);
    Fed(0x77B7_9C2D, 52, [53, 54, 55, 56, 57], 0x641C_1F5C);
    Fed(0x641C_1F5C, 53, [54, 55, 56, 57], 0x340A_C5E3);
    Fed(0x340A_C5E3, 54, [55, 56, 57], 0xF68D_2C9E);
    Fed(0xF68D_2C9E, 55, [56, 57], 0xAFFC_9660);
    Fed(0xAFFC_9660, 56, [57], 0x651F_2550);
    Fed(0x651F_2550, 57, [], 0x340B_C6D9);
    assert [49] + [50, 51, 52, 53, 54, 55, 56, 57] == [49, 50, 51, 52, 53, 54, 55, 56, 57];
    assert [50] + [51, 52, 53, 54, 55, 56, 57] == [50, 51, 52, 53, 54, 55, 56, 57];
    assert [51] + [52, 53, 54, 55, 56, 57] == [51, 52, 53, 54, 55, 56, 57];
    assert [52] + [53, 54, 55, 56, 57] == [52, 53, 54, 55, 56, 57];
    assert [53] + [54, 55, 56, 57] == [53, 54, 55, 56, 57];
    assert [54] + [55, 56, 57] == [54, 55, 56, 57];
    assert [55] + [56, 57] == [55, 56, 57];
    assert [56] + [57] == [56, 57];
    assert [57] + [] == [57];
    NothingFed(0x340B_C6D9);
  }

  /** The number stored for it. */
  lemma KnownCode()
    ensures Code(DIGITS) == 0xCBF4_3926
  {
    hide Checksum, Number;
    KnownAnswer();
    OctetsOfAnswer();
    NumberOfOctet(0x26);
    NumberOfOctet(0x39);
    NumberOfOctet(0xF4);
    NumberOfOctet(0xCB);
    assert WordBytes(0xCBF4_3926) == [0x26, 0x39, 0xF4, 0xCB];
  }

  lemma OctetsOfAnswer()
    ensures Octet(0x26) == 0x26 && Octet(0x39) == 0x39 && Octet(0xF4) == 0xF4 && Octet(0xCB) == 0xCB
  {
    assert ToBits(0x2, 4) == 0x2 && ToBits(0x3, 4) == 0x3 && ToBits(0xF, 4) == 0xF && ToBits(0xC, 4) == 0xC;
  }

  lemma NothingFed(c: bv32)
    ensures FoldBytes(c, []) == c
    ensures Xor(0x340B_C6D9, ONES) == 0xCBF4_3926
  {
  }
}
