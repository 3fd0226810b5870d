/**
 * The text semantic_digest hashes (src/persistence.cpp): which parts of a state
 * two saved copies must share to have the same digest.
 */
module Digest {
  import opened Records
  import opened Persistence

  function Decimal(n: nat): (t: Text)
    ensures t != [] && forall i :: 0 <= i < |t| ==> 48 <= t[i] < 58
  {
    if n < 10 then [48 + n] else Decimal(n / 10) + [48 + n % 10]
  }

  function Value(t: Text): int {
    if t == [] then 0 else 10 * Value(t[..|t| - 1]) + t[|t| - 1] - 48
  }

  function Join(parts: seq<Text>): Text {
    if parts == [] then [] else Join(parts[..|parts| - 1]) + parts[|parts| - 1]
  }

  /** Numbers separated by colons. */
  function Colons(ns: seq<nat>): Text {
    if ns == [] then []
    else if |ns| == 1 then Decimal(ns[0])
    else Decimal(ns[0]) + Ascii(":") + Colons(ns[1..])
  }

  function BufferText(b: BufferDescriptor): Text {
    Ascii("buf") + Colons([b.id, b.generation, b.byteLength, DomainCode(b.domain)]) + Ascii(";")
  }

  function RegistrationText(r: RegistrationRecord): Text {
    Ascii("reg") + Colons([r.id, r.bufferId, r.bufferGeneration, r.registrationGeneration, r.start, r.length]) + Ascii(";")
  }

  function RemoteKeyText(k: RemoteKey): Text {
    Ascii("rk") + Colons([k.id, k.registration, k.keyGeneration, if k.revoked then 1 else 0]) + Ascii(";")
  }

  function HeadText(s: PersistableState): Text {
    Ascii("pc") + Decimal(s.policyGeneration) + Ascii(";a") + Decimal(s.authority.epoch) + Ascii(",")
    + Decimal(s.authority.workerBoot) + Ascii(",") + Decimal(s.authority.backendGeneration) + Ascii(";")
  }

  function BufferTexts(bs: seq<BufferDescriptor>): seq<Text> {
    seq(|bs|, i requires 0 <= i < |bs| => BufferText(bs[i]))
  }

  function RegistrationTexts(rs: seq<RegistrationRecord>): seq<Text> {
    seq(|rs|, i requires 0 <= i < |rs| => RegistrationText(rs[i]))
  }

  function DomainTexts(ds: seq<nat>): seq<Text> {
    seq(|ds|, i requires 0 <= i < |ds| => Ascii("dom") + Decimal(ds[i]) + Ascii(";"))
  }

  function RemoteKeyTexts(ks: seq<RemoteKey>): seq<Text> {
    seq(|ks|, i requires 0 <= i < |ks| => RemoteKeyText(ks[i]))
  }

  function RevocationTexts(ts: seq<Text>): seq<Text> {
    seq(|ts|, i requires 0 <= i < |ts| => Ascii("rv") + ts[i] + Ascii(";"))
  }

  function TablesText(s: PersistableState): Text {
    Join(BufferTexts(s.buffers)) + Join(RegistrationTexts(s.registrations)) + Join(DomainTexts(s.domains))
    + Join(RemoteKeyTexts(s.remoteKeys)) + Join(RevocationTexts(s.revocations))
  }

  function DigestText(s: PersistableState): Text {
    Ascii("v") + Decimal(s.formatVersion) + Ascii(":") + (HeadText(s) + TablesText(s))
  }

  lemma {:induction false} ValueOfDecimal(n: nat)
    ensures Value(Decimal(n)) == n
  {
    if n < 10 {
      assert Value([]) == 0;
      assert [48 + n][..0] == [];
    } else {
      ValueOfDecimal(n / 10);
      var t := Decimal(n / 10) + [48 + n % 10];
      assert t[..|t| - 1] == Decimal(n / 10);
    }
  }

  /** A decimal number ends at its colon, so what follows cannot blur it. */
  lemma DecimalPrefix(a: nat, b: nat, x: Text, y: Text)
    requires Decimal(a) + Ascii(":") + x == Decimal(b) + Ascii(":") + y
    ensures a == b
  {
    hide Decimal;
    var p, q := Decimal(a), Decimal(b);
    var s, t := p + Ascii(":") + x, q + Ascii(":") + y;
    assert s[|p|] == 58 && t[|q|] == 58;
    assert s[..|p|] == p && t[..|q|] == q;
    if |p| < |q| {
      assert false;
    } else if |q| < |p| {
      assert false;
    }
    ValueOfDecimal(a);
    ValueOfDecimal(b);
  }

  /** Saving and loading leaves the digested text as it was exactly for states of the written version. */
  lemma DigestPreserved(s: PersistableState)
    ensures DigestText(Canonical(s)) == DigestText(s) <==> s.formatVersion == FORMAT_VERSION
  {
    hide Decimal, Colons, Ascii, Join;
    var c := Canonical(s);
    assert RegistrationTexts(c.registrations) == RegistrationTexts(s.registrations);
    var tail := HeadText(s) + TablesText(s);
    if DigestText(c) == DigestText(s) {
      var x, y := DigestText(c)[|Ascii("v")|..], DigestText(s)[|Ascii("v")|..];
      assert x == Decimal(FORMAT_VERSION) + Ascii(":") + tail;
      assert y == Decimal(s.formatVersion) + Ascii(":") + tail;
      DecimalPrefix(FORMAT_VERSION, s.formatVersion, tail, tail);
    }
  }

  /** With the round trip: what parse reads back from serialize has the same digested text. */
  lemma SavedDigest(s: PersistableState)
    requires Wide(s) && InBounds(s) && Integral(s) && s.formatVersion == FORMAT_VERSION
    ensures Accept(Blob(s)).Ok? && DigestText(Accept(Blob(s)).value) == DigestText(s)
  {
    hide Accept, Blob, Wide, InBounds, Integral, DigestText, Canonical;
    BlobRoundTrip(s);
    DigestPreserved(s);
  }
}
