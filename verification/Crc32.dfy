/**
 * The IEEE 802.3 frame check sequence (section 3.2.9 of IEEE 802.3; section 8
 * of RFC 1952), src/crc32.cpp. The byte-at-a-time loop is specified by
 * `Checksum`; the reference model is the bit-serial shift register `FoldBits`,
 * which takes the message bits least significant first.
 *
 * Lemmas about whole messages hide `Xor` and `BitStep` and use only the laws
 * proved for them, so that no bit-blasting happens under an induction.
 */
module Crc32 {
  import opened Bytes

  const POLY: bv32 := 0xEDB8_8320
  const ONES: bv32 := 0xFFFF_FFFF

  function Xor(a: bv32, b: bv32): bv32 {
    a ^ b
  }

  /** One shift of the register. */
  function BitStep(c: bv32): bv32 {
    if c & 1 == 1 then (c >> 1) ^ POLY else c >> 1
  }

  function Steps(c: bv32, n: nat): bv32
    decreases n
  {
    if n == 0 then c else Steps(BitStep(c), n - 1)
  }

  function Wide(b: byte): bv32 {
    Octet(b) as bv32
  }

  /** The register after the bytes `s`, eight shifts to a byte. */
  function FoldBytes(c: bv32, s: seq<byte>): bv32
    decreases s
  {
    if s == [] then c else FoldBytes(Steps(Xor(c, Wide(s[0])), 8), s[1..])
  }

  function Checksum(s: seq<byte>): bv32 {
    if s == [] then 0 else Xor(FoldBytes(ONES, s), ONES)
  }

  /** The checksum as the 32-bit number the formats store. */
  function Code(s: seq<byte>): nat {
    WordNumber(Checksum(s))
  }

  lemma CodeBound(s: seq<byte>)
    ensures Code(s) < Pow256(4)
  {
    LEOfFromLE(WordBytes(Checksum(s)));
  }

  /** The checksum as callers get it: an unsigned 32-bit number. */
  method Crc(data: seq<byte>) returns (code: nat)
    ensures code == Code(data)
  {
    hide Checksum, WordNumber;
    var register := Compute(data);
    code := WordNumber(register);
  }

  /** The loop of the source: the conditional XOR is a mask built from the low bit. */
  method Compute(data: seq<byte>) returns (crc: bv32)
    ensures crc == Checksum(data)
  {
    hide BitStep, Xor;
    if |data| == 0 {
      return 0;
    }
    crc := ONES;
    for i := 0 to |data|
      invariant FoldBytes(crc, data[i..]) == FoldBytes(ONES, data)
    {
      XorIs(crc, Wide(data[i]));
      crc := crc ^ (Octet(data[i]) as bv32);
      ghost var start := crc;
      for k := 0 to 8
        invariant Steps(crc, 8 - k) == Steps(start, 8)
      {
        var mask := 0 - (crc & 1);
        MaskStep(crc);
        crc := (crc >> 1) ^ (POLY & mask);
      }
      assert data[i..][1..] == data[i + 1..];
    }
    XorIs(crc, ONES);
    crc := crc ^ ONES;
  }

  lemma XorIs(a: bv32, b: bv32)
    ensures Xor(a, b) == a ^ b
  {
  }

  lemma MaskStep(c: bv32)
    ensures (c >> 1) ^ (POLY & (0 - (c & 1))) == BitStep(c)
  {
    if c & 1 == 1 {
      assert POLY & (0 - (1 as bv32)) == POLY;
    } else {
      assert c & 1 == 0;
      assert POLY & (0 - (0 as bv32)) == 0;
    }
  }

  // ---- laws of the register -------------------------------------------------

  lemma XorAssoc(a: bv32, b: bv32, c: bv32)
    ensures Xor(a, Xor(b, c)) == Xor(Xor(a, b), c)
  {
  }

  lemma XorSwap(a: bv32, b: bv32, c: bv32, d: bv32)
    ensures Xor(Xor(a, b), Xor(c, d)) == Xor(Xor(a, c), Xor(b, d))
  {
    hide Xor;
    XorAssoc(Xor(a, b), c, d);
    XorAssoc(a, b, c);
    XorCommutes(b, c);
    XorAssoc(a, c, b);
    XorAssoc(Xor(a, c), b, d);
  }

  lemma XorCommutes(a: bv32, b: bv32)
    ensures Xor(a, b) == Xor(b, a)
  {
  }

  lemma XorZero(a: bv32)
    ensures Xor(a, 0) == a && Xor(a, a) == 0
  {
  }

  /** `t` completes `c` to all ones exactly when it is the complement. */
  lemma XorOnes(c: bv32, t: bv32)
    ensures t == Xor(c, ONES) ==> Xor(c, t) == ONES
    ensures Xor(c, t) == ONES ==> t == Xor(c, ONES)
  {
    if t == Xor(c, ONES) {
      XorAgain(c);
    }
  }

  lemma XorAgain(c: bv32)
    ensures Xor(c, Xor(c, ONES)) == ONES
  {
  }

  lemma BitStepLinear(x: bv32, y: bv32)
    ensures BitStep(Xor(x, y)) == Xor(BitStep(x), BitStep(y))
  {
    RawStepLinear(x, y);
  }

  lemma RawStepLinear(x: bv32, y: bv32)
    ensures BitStep(x ^ y) == BitStep(x) ^ BitStep(y)
  {
    LowBitOfXor(x, y);
    LowBitOfXor(y, x);
    PolyMoves(x >> 1, y >> 1);
    if x & 1 == 1 {
      if y & 1 == 1 {
      }
    } else if y & 1 == 1 {
    }
  }

  lemma LowBitOfXor(x: bv32, y: bv32)
    ensures (x ^ y) & 1 == (x & 1) ^ (y & 1)
    ensures (x ^ y) >> 1 == (x >> 1) ^ (y >> 1)
    ensures x & 1 == 0 || x & 1 == 1
  {
  }

  lemma PolyMoves(a: bv32, b: bv32)
    ensures (a ^ POLY) ^ (b ^ POLY) == a ^ b
    ensures (a ^ POLY) ^ b == (a ^ b) ^ POLY
    ensures a ^ (b ^ POLY) == (a ^ b) ^ POLY
  {
  }

  lemma BitStepInjective(x: bv32, y: bv32)
    ensures BitStep(x) == BitStep(y) ==> x == y
    ensures BitStep(x) == 0 <==> x == 0
  {
  }

  lemma {:induction false} StepsInjective(x: bv32, y: bv32, n: nat)
    requires Steps(x, n) == Steps(y, n)
    ensures x == y
    decreases n
  {
    hide BitStep;
    if n > 0 {
      StepsInjective(BitStep(x), BitStep(y), n - 1);
      BitStepInjective(x, y);
    }
  }

  lemma {:induction false} StepsLinear(x: bv32, y: bv32, n: nat)
    ensures Steps(Xor(x, y), n) == Xor(Steps(x, n), Steps(y, n))
    decreases n
  {
    hide BitStep, Xor;
    if n > 0 {
      BitStepLinear(x, y);
      StepsLinear(BitStep(x), BitStep(y), n - 1);
    }
  }

  lemma {:induction false} StepsAdd(x: bv32, m: nat, n: nat)
    ensures Steps(x, m + n) == Steps(Steps(x, m), n)
    decreases m
  {
    hide BitStep;
    if m > 0 {
      StepsAdd(BitStep(x), m - 1, n);
    }
  }

  lemma {:induction false} FoldBytesConcat(c: bv32, a: seq<byte>, b: seq<byte>)
    ensures FoldBytes(c, a + b) == FoldBytes(FoldBytes(c, a), b)
    decreases a
  {
    hide Steps, Xor, Wide;
    if a == [] {
      assert a + b == b;
    } else {
      assert (a + b)[1..] == a[1..] + b;
      FoldBytesConcat(Steps(Xor(c, Wide(a[0])), 8), a[1..], b);
    }
  }

  // ---- the reference: one message bit per shift -----------------------------

  function Bit(b: bool): bv32 {
    if b then 1 else 0
  }

  function FoldBits(c: bv32, bits: seq<bool>): bv32
    decreases bits
  {
    if bits == [] then c else FoldBits(BitStep(Xor(c, Bit(bits[0]))), bits[1..])
  }

  /** The low `n` bits of `b`, least significant first. */
  function LowBits(b: bv8, n: nat): (bits: seq<bool>)
    ensures |bits| == n
  {
    if n == 0 then [] else [b & 1 == 1] + LowBits(b >> 1, n - 1)
  }

  function BitsOf(s: seq<byte>): (bits: seq<bool>)
    ensures |bits| == 8 * |s|
  {
    if s == [] then [] else LowBits(Octet(s[0]), 8) + BitsOf(s[1..])
  }

  /** The byte-wise loop computes the bit-serial register. */
  lemma {:induction false} BytesAreBits(c: bv32, s: seq<byte>)
    ensures FoldBytes(c, s) == FoldBits(c, BitsOf(s))
    decreases s
  {
    hide BitStep, Steps, Xor;
    if s != [] {
      BitsGone(Octet(s[0]));
      ByteIsBits(c, Octet(s[0]), 8);
      FoldBitsConcat(c, LowBits(Octet(s[0]), 8), BitsOf(s[1..]));
      BytesAreBits(Steps(Xor(c, Wide(s[0])), 8), s[1..]);
    }
  }

  lemma {:induction false} ByteIsBits(c: bv32, b: bv8, n: nat)
    requires Gone(b, n)
    ensures Steps(Xor(c, b as bv32), n) == FoldBits(c, LowBits(b, n))
    decreases n
  {
    hide BitStep, Xor;
    if n == 0 {
      XorZero(c);
    } else {
      PeelBit(c, b);
      ByteIsBits(BitStep(Xor(c, Bit(b & 1 == 1))), b >> 1, n - 1);
      assert LowBits(b, n)[1..] == LowBits(b >> 1, n - 1);
    }
  }

  /** A pending byte commutes with a shift, apart from its low bit. */
  lemma PeelBit(c: bv32, b: bv8)
    ensures BitStep(Xor(c, b as bv32)) == Xor(BitStep(Xor(c, Bit(b & 1 == 1))), (b >> 1) as bv32)
  {
    hide BitStep, Xor;
    var low, y := Bit(b & 1 == 1), ((b >> 1) as bv32) << 1;
    SplitLow(b);
    XorAssoc(c, low, y);
    BitStepLinear(Xor(c, low), y);
    BitStepEven(b >> 1);
  }

  lemma SplitLow(b: bv8)
    ensures (b as bv32) == Xor(Bit(b & 1 == 1), ((b >> 1) as bv32) << 1)
  {
  }

  lemma BitStepEven(b: bv8)
    ensures BitStep((b as bv32) << 1) == b as bv32
  {
  }

  lemma {:induction false} FoldBitsConcat(c: bv32, a: seq<bool>, b: seq<bool>)
    ensures FoldBits(c, a + b) == FoldBits(FoldBits(c, a), b)
    decreases a
  {
    hide BitStep, Xor;
    if a == [] {
      assert a + b == b;
    } else {
      assert (a + b)[1..] == a[1..] + b;
      FoldBitsConcat(BitStep(Xor(c, Bit(a[0]))), a[1..], b);
    }
  }

  // ---- burst detection ------------------------------------------------------

  /** The difference of two registers depends only on the difference of the messages. */
  lemma {:induction false} FoldBitsLinear(c: bv32, d: bv32, a: seq<bool>, b: seq<bool>)
    requires |a| == |b|
    ensures Xor(FoldBits(c, a), FoldBits(d, b)) == FoldBits(Xor(c, d), XorBits(a, b))
    decreases a
  {
    hide BitStep, Xor;
    if a != [] {
      var x, y := Xor(c, Bit(a[0])), Xor(d, Bit(b[0]));
      BitStepLinear(x, y);
      FoldBitsLinear(BitStep(x), BitStep(y), a[1..], b[1..]);
      XorSwap(c, Bit(a[0]), d, Bit(b[0]));
      XorOfBits(a[0], b[0]);
      assert XorBits(a, b)[1..] == XorBits(a[1..], b[1..]);
    }
  }

  lemma XorOfBits(p: bool, q: bool)
    ensures Xor(Bit(p), Bit(q)) == Bit(p != q)
  {
  }

  lemma {:induction false} ZerosKeepNonzero(c: bv32, e: seq<bool>)
    requires forall i :: 0 <= i < |e| ==> !e[i]
    ensures FoldBits(c, e) == 0 <==> c == 0
    decreases e
  {
    hide BitStep, Xor;
    if e != [] {
      XorZero(c);
      BitStepInjective(c, 0);
      ZerosKeepNonzero(BitStep(c), e[1..]);
    }
  }

  /** The word of `n` low ones. */
  function Low(n: nat): bv32 {
    if n == 0 then 0 else (Low(n - 1) << 1) | 1
  }

  lemma {:induction false} LowMonotone(i: nat, j: nat)
    requires i <= j
    ensures Low(i) & Low(j) == Low(i)
  {
    if i > 0 {
      LowMonotone(i - 1, j - 1);
      LowMonotoneStep(Low(i - 1), Low(j - 1));
    }
  }

  lemma LowMonotoneStep(a: bv32, b: bv32)
    requires a & b == a
    ensures ((a << 1) | 1) & ((b << 1) | 1) == (a << 1) | 1
  {
  }

  lemma LowShift(n: nat)
    requires 1 <= n <= 32
    ensures Low(n) >> 1 == Low(n - 1) && Low(n - 1) & 0x8000_0000 == 0 && Low(n) & 1 == 1
  {
    LowMonotone(n - 1, 31);
    LowThirtyOne();
    LowShiftBits(Low(n - 1));
  }

  lemma LowThirtyOne()
    ensures Low(31) == 0x7FFF_FFFF
  {
    assert Low(4) == 0xF;
    assert Low(8) == 0xFF;
    assert Low(12) == 0xFFF;
    assert Low(16) == 0xFFFF;
    assert Low(20) == 0xF_FFFF;
    assert Low(24) == 0xFF_FFFF;
    assert Low(28) == 0xFFF_FFFF;
  }

  lemma LowShiftBits(a: bv32)
    requires a & 0x7FFF_FFFF == a
    ensures a & 0x8000_0000 == 0 && ((a << 1) | 1) >> 1 == a && ((a << 1) | 1) & 1 == 1
  {
  }

  /** Undoing a shift: the high bit of the result tells whether POLY was applied. */
  lemma BitStepBack(c: bv32, b: bool, m: bv32)
    requires m & 1 == 1
    requires BitStep(Xor(c, Bit(b))) & (m >> 1) == BitStep(Xor(c, Bit(b)))
    ensures c & m == c
  {
  }

  /** A register that `|e|` more bits drive to zero has at most its `|e|` low bits set. */
  lemma {:induction false} BackToZero(c: bv32, e: seq<bool>)
    requires |e| <= 32 && FoldBits(c, e) == 0
    ensures c & Low(|e|) == c
    decreases e
  {
    hide BitStep, Xor;
    if e == [] {
      assert 0 & Low(0) == 0;
    } else {
      BackToZero(BitStep(Xor(c, Bit(e[0]))), e[1..]);
      LowShift(|e|);
      BitStepBack(c, e[0], Low(|e|));
    }
  }

  /** From the zero register, no nonzero pattern of at most 32 bits leads back to zero. */
  lemma {:induction false} WindowZero(e: seq<bool>)
    requires |e| <= 32 && FoldBits(0, e) == 0
    ensures forall i :: 0 <= i < |e| ==> !e[i]
  {
    hide BitStep, Xor;
    if e != [] {
      LowShift(|e|);
      FirstStep(Low(|e| - 1));
      if e[0] {
        BackToZero(BitStep(Xor(0, 1)), e[1..]);
        assert false;
      } else {
        WindowZero(e[1..]);
      }
    }
  }

  lemma FirstStep(m: bv32)
    requires m & 0x8000_0000 == 0
    ensures BitStep(Xor(0, 0)) == 0 && BitStep(Xor(0, 1)) & m != BitStep(Xor(0, 1))
  {
  }

  /** `a` and `b` differ, and only inside the bits `[lo, lo + 32)`. */
  predicate BurstApart(a: seq<bool>, b: seq<bool>, lo: nat) {
    && |a| == |b|
    && a != b
    && forall i :: 0 <= i < |a| && !(lo <= i < lo + 32) ==> a[i] == b[i]
  }

  /** Every error burst of at most 32 bits changes the register, whatever the message. */
  lemma BurstDetected(c: bv32, a: seq<bool>, b: seq<bool>, lo: nat)
    requires BurstApart(a, b, lo)
    ensures FoldBits(c, a) != FoldBits(c, b)
  {
    hide BitStep, Xor;
    if FoldBits(c, a) == FoldBits(c, b) {
      FoldBitsLinear(c, c, a, b);
      XorZero(c);
      XorZero(FoldBits(c, a));
      BurstLeavesZero(XorBits(a, b), lo);
      assert false;
    }
  }

  lemma BurstLeavesZero(e: seq<bool>, lo: nat)
    requires forall i :: 0 <= i < |e| && !(lo <= i < lo + 32) ==> !e[i]
    requires FoldBits(0, e) == 0
    ensures forall i :: 0 <= i < |e| ==> !e[i]
  {
    hide FoldBits;
    var l := if lo <= |e| then lo else |e|;
    var h := if lo + 32 <= |e| then lo + 32 else |e|;
    var pre, win, post := e[..l], e[l..h], e[h..];
    assert e == pre + win + post;
    FoldBitsConcat(0, pre + win, post);
    FoldBitsConcat(0, pre, win);
    ZerosKeepNonzero(0, pre);
    ZerosKeepNonzero(FoldBits(0, win), post);
    WindowZero(win);
    forall i | 0 <= i < |e| ensures !e[i] {
      if l <= i < h {
        assert !win[i - l];
      }
    }
  }

  /** The messages `s` and `t`, bit by bit, are a burst apart. */
  predicate BurstBytes(s: seq<byte>, t: seq<byte>, lo: nat) {
    |s| == |t| && BurstApart(BitsOf(s), BitsOf(t), lo)
  }

  lemma BurstLength(s: seq<byte>, t: seq<byte>, lo: nat)
    requires BurstBytes(s, t, lo)
    ensures |s| == |t|
  {
  }

  /** Any change confined to four consecutive bytes is such a burst. */
  lemma FourBytesAreABurst(s: seq<byte>, t: seq<byte>, k: nat)
    requires |s| == |t| && s != t
    requires forall i :: 0 <= i < |s| && !(k <= i < k + 4) ==> s[i] == t[i]
    ensures BurstBytes(s, t, 8 * k)
  {
    if BitsOf(s) == BitsOf(t) {
      BitsInjective(s, t);
    }
    forall i | 0 <= i < |BitsOf(s)| && !(8 * k <= i < 8 * k + 32) ensures BitsOf(s)[i] == BitsOf(t)[i] {
      BitOfByte(s, i);
      BitOfByte(t, i);
      assert !(k <= i / 8 < k + 4);
    }
  }

  lemma {:induction false} BitOfByte(s: seq<byte>, i: nat)
    requires i < 8 * |s|
    ensures BitsOf(s)[i] == LowBits(Octet(s[i / 8]), 8)[i % 8]
  {
    if i >= 8 {
      BitOfByte(s[1..], i - 8);
      assert (i - 8) / 8 == i / 8 - 1;
    }
  }

  lemma {:induction false} BitsInjective(s: seq<byte>, t: seq<byte>)
    requires |s| == |t| && BitsOf(s) == BitsOf(t)
    ensures s == t
  {
    if s != [] {
      var a, b := Octet(s[0]), Octet(t[0]);
      assert BitsOf(s)[..8] == LowBits(a, 8) && BitsOf(t)[..8] == LowBits(b, 8);
      assert BitsOf(s)[8..] == BitsOf(s[1..]) && BitsOf(t)[8..] == BitsOf(t[1..]);
      BitsGone(a);
      BitsGone(b);
      LowBitsInjective(a, b, 8);
      NumberOfOctet(s[0]);
      NumberOfOctet(t[0]);
      BitsInjective(s[1..], t[1..]);
    }
  }

  lemma {:induction false} LowBitsInjective(a: bv8, b: bv8, n: nat)
    requires Gone(a, n) && Gone(b, n) && LowBits(a, n) == LowBits(b, n)
    ensures a == b
  {
    if n > 0 {
      assert LowBits(a, n)[0] == LowBits(b, n)[0];
      assert LowBits(a, n)[1..] == LowBits(a >> 1, n - 1);
      assert LowBits(b, n)[1..] == LowBits(b >> 1, n - 1);
      LowBitsInjective(a >> 1, b >> 1, n - 1);
      SameLowAndShift(a, b);
    }
  }

  lemma SameLowAndShift(a: bv8, b: bv8)
    requires a >> 1 == b >> 1 && (a & 1 == 1 <==> b & 1 == 1)
    ensures a == b
  {
  }

  // ---- the trailer: a checked message leaves a fixed residue -----------------

  function Residue(): bv32 {
    Steps(ONES, 32)
  }

  /** A message and its trailer, checked as both decoders check them. */
  predicate Checked(s: seq<byte>, trailer: seq<byte>)
    requires |trailer| == 4
  {
    FromLE(trailer) == Code(s)
  }

  /** A trailer matches its message exactly when the register over both is the residue. */
  lemma TrailerResidue(s: seq<byte>, trailer: seq<byte>)
    requires s != [] && |trailer| == 4
    ensures Checked(s, trailer) <==> FoldBytes(ONES, s + trailer) == Residue()
  {
    hide BitStep, Xor, FoldBytes, Steps, BytesWord, WordBytes, WordNumber;
    var c, t := FoldBytes(ONES, s), BytesWord(trailer);
    FoldBytesConcat(ONES, s, trailer);
    WordFold(c, trailer);
    WordOfFour(trailer);
    StoredWord(Checksum(s), trailer);
    WordBytesInverse(Checksum(s), trailer);
    XorOnes(c, t);
    if Steps(Xor(c, t), 32) == Residue() {
      StepsInjective(Xor(c, t), ONES, 32);
    }
  }

  /** Hence a burst anywhere in message and trailer, or across both, is never accepted. */
  lemma BurstRejected(s: seq<byte>, trailer: seq<byte>, s': seq<byte>, trailer': seq<byte>, lo: nat)
    requires s != [] && |s'| == |s| && |trailer| == |trailer'| == 4
    requires Checked(s, trailer) && BurstBytes(s + trailer, s' + trailer', lo)
    ensures !Checked(s', trailer')
  {
    hide FoldBytes, FoldBits, Steps, BitsOf;
    TrailerResidue(s, trailer);
    TrailerResidue(s', trailer');
    BytesAreBits(ONES, s + trailer);
    BytesAreBits(ONES, s' + trailer');
    BurstDetected(ONES, BitsOf(s + trailer), BitsOf(s' + trailer'), lo);
  }

  function Up(w: bv32): bv32 {
    w << 8
  }

  function Join(a: bv8, b: bv8, c: bv8, d: bv8): bv32 {
    (a as bv32) | ((b as bv32) << 8) | ((c as bv32) << 16) | ((d as bv32) << 24)
  }

  lemma JoinPeel(a: bv8, b: bv8, c: bv8, d: bv8)
    ensures Join(a, b, c, d) == Xor(a as bv32, Up(Join(b, c, d, 0)))
  {
  }

  lemma JoinBound(a: bv8, b: bv8, c: bv8)
    ensures Join(0, 0, 0, 0) == 0 && Join(a, b, c, 0) <= 0xFF_FFFF
  {
  }

  function OctetAt(s: seq<byte>, i: nat): bv8 {
    if i < |s| then Octet(s[i]) else 0
  }

  /** At most four bytes as one little-endian word. */
  function Word(s: seq<byte>): bv32 {
    Join(OctetAt(s, 0), OctetAt(s, 1), OctetAt(s, 2), OctetAt(s, 3))
  }

  lemma WordOfFour(s: seq<byte>)
    requires |s| == 4
    ensures Word(s) == BytesWord(s)
  {
  }

  /** Up to four bytes enter the register together, as one word. */
  lemma {:induction false} WordFold(c: bv32, s: seq<byte>)
    requires |s| <= 4
    ensures FoldBytes(c, s) == Steps(Xor(c, Word(s)), 8 * |s|)
    decreases s
  {
    hide BitStep, Xor, Up, Join;
    if s == [] {
      XorZero(c);
      JoinBound(0, 0, 0);
    } else {
      var x, y := Xor(c, Wide(s[0])), Word(s[1..]);
      WordFold(Steps(x, 8), s[1..]);
      JoinPeel(OctetAt(s, 0), OctetAt(s, 1), OctetAt(s, 2), OctetAt(s, 3));
      JoinBound(OctetAt(s, 1), OctetAt(s, 2), OctetAt(s, 3));
      XorAssoc(c, Wide(s[0]), Up(y));
      ShiftIn(x, y);
      StepsAdd(Xor(x, Up(y)), 8, 8 * |s[1..]|);
    }
  }

  /** A word waiting above the low byte is shifted down, untouched, by eight steps. */
  lemma ShiftIn(x: bv32, y: bv32)
    requires y <= 0xFF_FFFF
    ensures Steps(Xor(x, Up(y)), 8) == Xor(Steps(x, 8), y)
  {
    hide BitStep, Xor;
    StepsLinear(x, Up(y), 8);
    EightEvenSteps(y);
  }

  lemma EightEvenSteps(y: bv32)
    requires y <= 0xFF_FFFF
    ensures Steps(Up(y), 8) == y
  {
    hide BitStep, Steps;
    assert Up(y) == (y << 4) << 4 && y << 4 <= 0xFFF_FFFF;
    FourEvenSteps(y << 4);
    FourEvenSteps(y);
    StepsAdd(Up(y), 4, 4);
  }

  lemma FourEvenSteps(y: bv32)
    requires y <= 0xFFF_FFFF
    ensures Steps(y << 4, 4) == y
  {
    hide BitStep, Steps;
    assert y << 4 == (y << 2) << 2 && y << 2 <= 0x3FFF_FFFF;
    TwoEvenSteps(y << 2);
    TwoEvenSteps(y);
    StepsAdd(y << 4, 2, 2);
  }

  lemma TwoEvenSteps(y: bv32)
    requires y <= 0x3FFF_FFFF
    ensures Steps(y << 2, 2) == y
  {
    hide BitStep;
    TwoShifts(y);
    EvenStep(y << 1);
    EvenStep(y);
    assert Steps(y << 1, 1) == y;
  }

  lemma TwoShifts(y: bv32)
    requires y <= 0x3FFF_FFFF
    ensures y << 2 == (y << 1) << 1 && y << 1 <= 0x7FFF_FFFF
  {
  }

  lemma EvenStep(y: bv32)
    requires y <= 0x7FFF_FFFF
    ensures BitStep(y << 1) == y
  {
  }
}
