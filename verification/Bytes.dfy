/** Bytes and the little-endian rendering of integers shared by every codec. */
module Bytes {
  type byte = b: nat | b < 256

  const WORD_LIMIT: nat := 0x1_0000_0000_0000_0000

  /** The `n` little-endian bytes of `v`. */
  function LE(v: nat, n: nat): (s: seq<byte>)
    ensures |s| == n
  {
    if n == 0 then [] else [v % 256] + LE(v / 256, n - 1)
  }

  function FromLE(s: seq<byte>): nat {
    if s == [] then 0 else s[0] + 256 * FromLE(s[1..])
  }

  function Pow256(n: nat): (p: nat)
    ensures p > 0
  {
    if n == 0 then 1 else 256 * Pow256(n - 1)
  }

  lemma EightBytes()
    ensures Pow256(8) == WORD_LIMIT
  {
    assert Pow256(4) == 0x1_0000_0000;
  }

  lemma {:induction false} FromLEOfLE(v: nat, n: nat)
    requires v < Pow256(n)
    ensures FromLE(LE(v, n)) == v
  {
    if n > 0 {
      FromLEOfLE(v / 256, n - 1);
      assert LE(v, n)[1..] == LE(v / 256, n - 1);
    }
  }

  lemma {:induction false} LEOfFromLE(s: seq<byte>)
    ensures FromLE(s) < Pow256(|s|)
    ensures LE(FromLE(s), |s|) == s
  {
    if s != [] {
      LEOfFromLE(s[1..]);
      assert FromLE(s) / 256 == FromLE(s[1..]);
      assert s == [s[0]] + s[1..];
    }
  }

  /** Appending a byte adds it at the next higher power: the Reader's shift loop. */
  lemma {:induction false} FromLEAppend(s: seq<byte>, b: byte)
    ensures FromLE(s + [b]) == FromLE(s) + b * Pow256(|s|)
  {
    if s == [] {
      assert (s + [b])[1..] == [];
    } else {
      assert (s + [b])[1..] == s[1..] + [b];
      FromLEAppend(s[1..], b);
    }
  }

  /** Byte `i` is the value shifted right by `8 * i` bits: the Writer's shift loop. */
  lemma {:induction false} LEByte(v: nat, n: nat, i: nat)
    requires i < n
    ensures LE(v, n)[i] == v / Pow256(i) % 256
  {
    if i > 0 {
      LEByte(v / 256, n - 1, i - 1);
      DivDiv(v, Pow256(i - 1));
    }
  }

  lemma DivDiv(v: nat, p: nat)
    requires p > 0
    ensures v / 256 / p == v / (256 * p)
  {
    var q, r := v / 256, v % 256;
    var a, b := q / p, q % p;
    assert q == a * p + b;
    assert v == a * (256 * p) + (256 * b + r);
    assert 0 <= 256 * b + r < 256 * p;
    DivUnique(v, 256 * p, a, 256 * b + r);
  }

  lemma DivUnique(v: nat, d: nat, q: nat, r: nat)
    requires d > 0 && r < d && v == q * d + r
    ensures v / d == q
  {
    var q' := v / d;
    assert v == q' * d + v % d;
    if q' > q {
      MulMonotone(q + 1, q', d);
    } else if q' < q {
      MulMonotone(q' + 1, q, d);
    }
  }

  lemma MulMonotone(a: nat, b: nat, d: nat)
    requires a <= b
    ensures a * d <= b * d
  {
    assert (b - a) * d >= 0;
  }

  // ---- bit vectors -----------------------------------------------------------

  /** The low `n` bits of `v`, as a bit vector. */
  function ToBits(v: nat, n: nat): bv8 {
    if n == 0 then 0 else (if v % 2 == 1 then 1 else 0) | (ToBits(v / 2, n - 1) << 1)
  }

  function FromBits(o: bv8, n: nat): nat {
    if n == 0 then 0 else (if o & 1 == 1 then 1 else 0) + 2 * FromBits(o >> 1, n - 1)
  }

  function Pow2(n: nat): (p: nat)
    ensures p > 0
  {
    if n == 0 then 1 else 2 * Pow2(n - 1)
  }

  function Octet(b: byte): bv8 {
    ToBits(b, 8)
  }

  function Number(o: bv8): (b: byte)
    ensures Octet(b) == o
  {
    EightBits();
    BitsGone(o);
    ToOfFromBits(o, 8);
    FromBits(o, 8)
  }

  lemma EightBits()
    ensures Pow2(8) == 256
  {
    assert Pow2(4) == 16;
  }

  lemma NumberOfOctet(b: byte)
    ensures Number(Octet(b)) == b
  {
    EightBits();
    FromOfToBits(b, 8);
  }

  /** `o` has no bit left after `n` shifts. */
  predicate Gone(o: bv8, n: nat) {
    if n == 0 then o == 0 else Gone(o >> 1, n - 1)
  }

  lemma BitsGone(o: bv8)
    ensures Gone(o, 8)
  {
    var o2 := o >> 1 >> 1;
    var o4 := o2 >> 1 >> 1;
    var o6 := o4 >> 1 >> 1;
    assert o6 >> 1 >> 1 == 0;
    assert Gone(o6, 2);
    assert Gone(o4 >> 1, 3);
    assert Gone(o4, 4);
    assert Gone(o2 >> 1, 5);
    assert Gone(o2, 6);
    assert Gone(o >> 1, 7);
  }

  lemma {:induction false} FromOfToBits(v: nat, n: nat)
    requires v < Pow2(n) && n <= 8
    ensures FromBits(ToBits(v, n), n) == v
    ensures Gone(ToBits(v, n), n)
  {
    if n > 0 {
      FromOfToBits(v / 2, n - 1);
      GoneTop(ToBits(v / 2, n - 1), n - 1);
      Pushed(v % 2 == 1, ToBits(v / 2, n - 1));
    }
  }

  lemma {:induction false} GoneTop(o: bv8, n: nat)
    requires Gone(o, n) && n <= 7
    ensures o & 0x80 == 0
  {
    GoneLater(o, n, 7);
    TopAfterSeven(o);
  }

  lemma {:induction false} GoneLater(o: bv8, n: nat, m: nat)
    requires Gone(o, n) && n <= m
    ensures Gone(o, m)
  {
    if n == 0 && m > 0 {
      assert (0 as bv8) >> 1 == 0;
      GoneLater(o, 0, m - 1);
    } else if n > 0 {
      GoneLater(o >> 1, n - 1, m - 1);
    }
  }

  lemma TopAfterSeven(o: bv8)
    requires Gone(o, 7)
    ensures o & 0x80 == 0
  {
    var o2 := o >> 1 >> 1;
    var o4 := o2 >> 1 >> 1;
    var o6 := o4 >> 1 >> 1;
    assert Gone(o >> 1, 6) && Gone(o2, 5) && Gone(o2 >> 1, 4) && Gone(o4, 3) && Gone(o4 >> 1, 2) && Gone(o6, 1);
    assert Gone(o6 >> 1, 0);
  }

  lemma Pushed(b: bool, o: bv8)
    requires o & 0x80 == 0
    ensures var p := (if b then 1 else 0) | (o << 1); (p & 1 == 1 <==> b) && p >> 1 == o
  {
  }

  lemma {:induction false} ToOfFromBits(o: bv8, n: nat)
    requires Gone(o, n)
    ensures FromBits(o, n) < Pow2(n)
    ensures ToBits(FromBits(o, n), n) == o
  {
    if n > 0 {
      ToOfFromBits(o >> 1, n - 1);
      Rejoined(o);
    }
  }

  lemma Rejoined(o: bv8)
    ensures (if o & 1 == 1 then 1 else 0) | ((o >> 1) << 1) == o
  {
  }

  function WordBytes(w: bv32): (s: seq<byte>)
    ensures |s| == 4
  {
    [Number((w & 0xFF) as bv8), Number(((w >> 8) & 0xFF) as bv8),
     Number(((w >> 16) & 0xFF) as bv8), Number(((w >> 24) & 0xFF) as bv8)]
  }

  function BytesWord(s: seq<byte>): bv32
    requires |s| == 4
  {
    (Octet(s[0]) as bv32) | ((Octet(s[1]) as bv32) << 8) | ((Octet(s[2]) as bv32) << 16) | ((Octet(s[3]) as bv32) << 24)
  }

  lemma WordBytesInverse(w: bv32, s: seq<byte>)
    requires |s| == 4
    ensures BytesWord(WordBytes(w)) == w
    ensures WordBytes(BytesWord(s)) == s
  {
    NumberOfOctet(s[0]);
    NumberOfOctet(s[1]);
    NumberOfOctet(s[2]);
    NumberOfOctet(s[3]);
    JoinSplit(w, Octet(s[0]), Octet(s[1]), Octet(s[2]), Octet(s[3]));
  }

  /** A 32-bit register as the number it is stored and compared as. */
  function WordNumber(w: bv32): nat {
    FromLE(WordBytes(w))
  }

  /** Four bytes read as a number are a register's value exactly when they are its bytes. */
  lemma StoredWord(w: bv32, s: seq<byte>)
    requires |s| == 4
    ensures FromLE(s) == WordNumber(w) <==> s == WordBytes(w)
    ensures LE(WordNumber(w), 4) == WordBytes(w)
  {
    hide WordBytes;
    LEOfFromLE(s);
    LEOfFromLE(WordBytes(w));
  }

  lemma JoinSplit(w: bv32, a: bv8, b: bv8, c: bv8, d: bv8)
    ensures (((w & 0xFF) as bv8) as bv32) | ((((w >> 8) & 0xFF) as bv8) as bv32 << 8)
          | ((((w >> 16) & 0xFF) as bv8) as bv32 << 16) | ((((w >> 24) & 0xFF) as bv8) as bv32 << 24) == w
    ensures var j := (a as bv32) | ((b as bv32) << 8) | ((c as bv32) << 16) | ((d as bv32) << 24);
            && (j & 0xFF) as bv8 == a && ((j >> 8) & 0xFF) as bv8 == b
            && ((j >> 16) & 0xFF) as bv8 == c && ((j >> 24) & 0xFF) as bv8 == d
  {
  }

  /** Exclusive-or of two bit strings of one length. */
  function XorBits(a: seq<bool>, b: seq<bool>): (e: seq<bool>)
    requires |a| == |b|
    ensures |e| == |a|
    ensures forall i :: 0 <= i < |a| ==> e[i] == (a[i] != b[i])
  {
    seq(|a|, i requires 0 <= i < |a| => a[i] != b[i])
  }
}
