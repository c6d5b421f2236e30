/** The SSH host key reader: strings and mpints of section 5 of RFC 4251,
    key blobs of section 6.6 of RFC 4253. */
module Ssh {
  import opened Basics

  /** RSA carries the modulus size, ECDSA the curve name as found in the blob. */
  datatype Key = Rsa(bits: nat) | Ecdsa(curve: string) | Ed25519

  function ReadString(data: Bytes, offset: nat): (r: Option<(Bytes, nat)>)
    ensures r.Some? ==> offset + 4 <= r.value.1 <= |data| && r.value.0 == data[offset + 4..r.value.1]
  {
    if offset + 4 > |data| then None
    else
      var start, length := offset + 4, U32(data[offset..offset + 4]);
      if start + length > |data| then None else Some((data[start..start + length], start + length))
  }

  /** Big-endian, unsigned, leading zeros allowed. */
  function FromBytes(b: Bytes): nat {
    if b == [] then 0 else 256 * FromBytes(b[..|b| - 1]) + b[|b| - 1]
  }

  function ReadMpint(data: Bytes, offset: nat): Option<(nat, nat)> {
    match ReadString(data, offset)
    case None => None
    case Some((raw, next)) => Some((FromBytes(raw), next))
  }

  function BitLength(n: nat): nat {
    if n == 0 then 0 else 1 + BitLength(n / 2)
  }

  predicate IsAscii(b: Bytes) {
    forall i :: 0 <= i < |b| ==> b[i] < 128
  }

  function Ascii(b: Bytes): (s: string)
    requires IsAscii(b)
    ensures |s| == |b|
  {
    seq(|b|, i requires 0 <= i < |b| => b[i] as char)
  }

  const CURVES: map<string, string> := map["nistp256" := "P256", "nistp384" := "P384", "nistp521" := "P521"]

  function NormalCurve(curve: string): string {
    if curve in CURVES then CURVES[curve] else curve
  }

  /** None for a truncated field, a name that is not ASCII, or an unknown key type. */
  function ParseBlob(keyType: string, blob: Bytes): Option<Key> {
    match ReadString(blob, 0)
    case None => None
    case Some((name, offset)) =>
      if !IsAscii(name) then None
      else if Ascii(name) == "ssh-rsa" || "rsa-" <= keyType then
        match ReadMpint(blob, offset)
        case None => None
        case Some((_, second)) =>
          match ReadMpint(blob, second) case None => None case Some((modulus, _)) => Some(Rsa(BitLength(modulus)))
      else if "ecdsa-sha2-" <= Ascii(name) then
        match ReadString(blob, offset)
        case None => None
        case Some((curve, _)) => if IsAscii(curve) then Some(Ecdsa(NormalCurve(Ascii(curve)))) else None
      else if Ascii(name) == "ssh-ed25519" then Some(Ed25519)
      else None
  }

  // ----- Encoding -----

  function EncodeString(s: Bytes): (b: Bytes)
    requires |s| < 0x1_0000_0000
    ensures |b| == 4 + |s| && U32(b[..4]) == |s| && b[4..] == s
  {
    assert (E32(|s|) + s)[..4] == E32(|s|);
    E32(|s|) + s
  }

  /** Fewest octets, none for zero. */
  function Magnitude(n: nat): Bytes {
    if n == 0 then [] else Magnitude(n / 256) + [n % 256]
  }

  /** An mpint's octets: a leading zero keeps a set top bit from reading as a sign. */
  function MpintBody(n: nat): Bytes {
    var m := Magnitude(n);
    if m != [] && m[0] >= 128 then [0] + m else m
  }

  /** The octets of ssh-rsa. */
  const RSA: Bytes := [115, 115, 104, 45, 114, 115, 97]

  function RsaBlob(exponent: nat, modulus: nat): Bytes
    requires |MpintBody(exponent)| < 0x1_0000_0000 && |MpintBody(modulus)| < 0x1_0000_0000
  {
    EncodeString(RSA) + EncodeString(MpintBody(exponent)) + EncodeString(MpintBody(modulus))
  }

  // ----- Proofs -----

  lemma {:induction false} MagnitudeReads(n: nat)
    ensures FromBytes(Magnitude(n)) == n
  {
    if n != 0 {
      MagnitudeReads(n / 256);
      assert Magnitude(n)[..|Magnitude(n)| - 1] == Magnitude(n / 256);
    }
  }

  lemma {:induction false} LeadingZero(b: Bytes)
    ensures FromBytes([0] + b) == FromBytes(b)
  {
    if b == [] {
      assert ([0] + b)[..0] == [];
    } else {
      LeadingZero(b[..|b| - 1]);
      assert ([0] + b)[..|b|] == [0] + b[..|b| - 1];
    }
  }

  lemma MpintReads(n: nat)
    ensures FromBytes(MpintBody(n)) == n
  {
    MagnitudeReads(n);
    LeadingZero(Magnitude(n));
  }

  function Pow2(n: nat): nat {
    if n == 0 then 1 else 2 * Pow2(n - 1)
  }

  /** BitLength is the number of binary digits. */
  lemma {:induction false} BitLengthIsSize(n: nat)
    ensures n < Pow2(BitLength(n))
    ensures n > 0 ==> BitLength(n) > 0 && Pow2(BitLength(n) - 1) <= n
  {
    if n > 0 {
      BitLengthIsSize(n / 2);
    }
  }

  lemma FieldReads(before: Bytes, field: Bytes, after: Bytes)
    requires |field| >= 4 && U32(field[..4]) == |field| - 4
    ensures ReadString(before + field + after, |before|) == Some((field[4..], |before| + |field|))
  {
    var data, k := before + field + after, |before|;
    assert data[k..k + 4] == field[..4];
    assert data[k + 4..k + |field|] == field[4..];
  }

  /** A string is read back wherever it stands, whatever follows. */
  lemma StringReads(before: Bytes, s: Bytes, after: Bytes)
    requires |s| < 0x1_0000_0000
    ensures ReadString(before + EncodeString(s) + after, |before|) == Some((s, |before| + 4 + |s|))
  {
    FieldReads(before, EncodeString(s), after);
  }

  /** Reading is not disturbed by what follows the bytes it uses. */
  lemma ReadExtends(data: Bytes, after: Bytes, offset: nat)
    requires ReadString(data, offset).Some?
    ensures ReadString(data + after, offset) == ReadString(data, offset)
  {
    var r := ReadString(data, offset).value;
    assert (data + after)[offset..offset + 4] == data[offset..offset + 4];
    assert (data + after)[offset + 4..r.1] == data[offset + 4..r.1];
  }

  /** An accepted blob means the same key whatever is appended to it. */
  lemma TrailingBytesIgnored(keyType: string, blob: Bytes, after: Bytes)
    requires ParseBlob(keyType, blob).Some?
    ensures ParseBlob(keyType, blob + after) == ParseBlob(keyType, blob)
  {
    var (name, offset) := ReadString(blob, 0).value;
    ReadExtends(blob, after, 0);
    if Ascii(name) == "ssh-rsa" || "rsa-" <= keyType {
      ReadExtends(blob, after, offset);
      ReadExtends(blob, after, ReadString(blob, offset).value.1);
    } else if "ecdsa-sha2-" <= Ascii(name) {
      ReadExtends(blob, after, offset);
    }
  }

  lemma RsaName()
    ensures IsAscii(RSA) && Ascii(RSA) == "ssh-rsa"
  {
  }

  lemma ThreeFields(a: Bytes, b: Bytes, c: Bytes)
    requires |a| < 0x1_0000_0000 && |b| < 0x1_0000_0000 && |c| < 0x1_0000_0000
    ensures
      var blob := EncodeString(a) + EncodeString(b) + EncodeString(c);
      && ReadString(blob, 0) == Some((a, 4 + |a|))
      && ReadString(blob, 4 + |a|) == Some((b, 8 + |a| + |b|))
      && ReadString(blob, 8 + |a| + |b|) == Some((c, |blob|))
  {
    var x, y, z := EncodeString(a), EncodeString(b), EncodeString(c);
    Associates(x, y, z);
    FirstField(a, y + z);
    StringReads(x, b, z);
    LastField(x + y, c);
  }

  lemma Associates(x: Bytes, y: Bytes, z: Bytes)
    ensures x + y + z == x + (y + z)
  {
  }

  lemma FirstField(a: Bytes, rest: Bytes)
    requires |a| < 0x1_0000_0000
    ensures ReadString(EncodeString(a) + rest, 0) == Some((a, 4 + |a|))
  {
    StringReads([], a, rest);
    assert [] + EncodeString(a) == EncodeString(a);
  }

  lemma LastField(before: Bytes, c: Bytes)
    requires |c| < 0x1_0000_0000
    ensures ReadString(before + EncodeString(c), |before|) == Some((c, |before| + 4 + |c|))
  {
    StringReads(before, c, []);
    assert before + EncodeString(c) + [] == before + EncodeString(c);
  }

  lemma RsaFields(exponent: nat, modulus: nat)
    requires |MpintBody(exponent)| < 0x1_0000_0000 && |MpintBody(modulus)| < 0x1_0000_0000
    ensures
      var blob, second := RsaBlob(exponent, modulus), 15 + |MpintBody(exponent)|;
      && ReadString(blob, 0) == Some((RSA, 11))
      && ReadString(blob, 11) == Some((MpintBody(exponent), second))
      && ReadString(blob, second) == Some((MpintBody(modulus), |blob|))
  {
    ThreeFields(RSA, MpintBody(exponent), MpintBody(modulus));
  }

  /** Every RSA key, with any exponent and any modulus, is recognised with its exact size. */
  lemma RsaRoundTrip(keyType: string, exponent: nat, modulus: nat, after: Bytes)
    requires |MpintBody(exponent)| < 0x1_0000_0000 && |MpintBody(modulus)| < 0x1_0000_0000
    ensures ParseBlob(keyType, RsaBlob(exponent, modulus) + after) == Some(Rsa(BitLength(modulus)))
  {
    RsaName();
    RsaFields(exponent, modulus);
    MpintReads(exponent);
    MpintReads(modulus);
    assert ParseBlob(keyType, RsaBlob(exponent, modulus)) == Some(Rsa(BitLength(modulus)));
    TrailingBytesIgnored(keyType, RsaBlob(exponent, modulus), after);
  }

  /** A field that a cut goes through cannot be read; one before the cut reads as it did. */
  lemma ReadCut(data: Bytes, offset: nat, cut: nat)
    requires ReadString(data, offset).Some? && cut <= |data|
    ensures ReadString(data[..cut], offset)
            == if ReadString(data, offset).value.1 <= cut then ReadString(data, offset) else None
  {
    var next := ReadString(data, offset).value.1;
    if offset + 4 <= cut {
      assert data[..cut][offset..offset + 4] == data[offset..offset + 4];
      if next <= cut {
        assert data[..cut][offset + 4..next] == data[offset + 4..next];
      }
    }
  }

  /** Every strict prefix of an RSA blob is rejected. */
  lemma RsaPrefixRejected(keyType: string, exponent: nat, modulus: nat, cut: nat)
    requires |MpintBody(exponent)| < 0x1_0000_0000 && |MpintBody(modulus)| < 0x1_0000_0000
    requires cut < |RsaBlob(exponent, modulus)|
    ensures ParseBlob(keyType, RsaBlob(exponent, modulus)[..cut]) == None
  {
    RsaName();
    RsaFields(exponent, modulus);
    var blob, second := RsaBlob(exponent, modulus), 15 + |MpintBody(exponent)|;
    ReadCut(blob, 0, cut);
    ReadCut(blob, 11, cut);
    ReadCut(blob, second, cut);
  }

  // ----- The other key types -----

  function Octets(s: string): (b: Bytes)
    requires forall i :: 0 <= i < |s| ==> s[i] as int < 128
    ensures |b| == |s| && IsAscii(b) && Ascii(b) == s
  {
    var b := seq(|s|, i requires 0 <= i < |s| => s[i] as int);
    assert forall i :: 0 <= i < |b| ==> b[i] < 128;
    assert Ascii(b) == s;
    b
  }

  predicate Plain(s: string) {
    |s| < 0x1_0000_0000 && forall i :: 0 <= i < |s| ==> s[i] as int < 128
  }

  /** The curve's short name, for the three that have one. */
  predicate Curve(curve: string, name: string) {
    if curve == "nistp256" then name == "P256"
    else if curve == "nistp384" then name == "P384"
    else if curve == "nistp521" then name == "P521"
    else name == curve
  }

  lemma CurveNames(curve: string)
    ensures Curve(curve, NormalCurve(curve))
  {
  }

  /** An ECDSA blob, whatever point and bytes follow its curve name, is recognised with that curve. */
  lemma EcdsaRoundTrip(keyType: string, suffix: string, curve: string, after: Bytes)
    requires Plain("ecdsa-sha2-" + suffix) && Plain(curve) && !("rsa-" <= keyType)
    ensures
      var r := ParseBlob(keyType, EncodeString(Octets("ecdsa-sha2-" + suffix)) + EncodeString(Octets(curve)) + after);
      r.Some? && r.value.Ecdsa? && Curve(curve, r.value.curve)
  {
    var name := "ecdsa-sha2-" + suffix;
    var x, y := EncodeString(Octets(name)), EncodeString(Octets(curve));
    Associates(x, y, after);
    FirstField(Octets(name), y + after);
    StringReads(x, Octets(curve), after);
    CurveNames(curve);
    assert "ecdsa-sha2-" <= name && name[0] == 'e' && "ssh-rsa"[0] == 's';
  }

  /** The field at an offset, and where the next one starts. */
  predicate Reads(blob: Bytes, offset: nat, field: Bytes, next: nat) {
    ReadString(blob, offset) == Some((field, next))
  }

  /** A key type that asks for RSA is believed: any ASCII name followed by two numbers gives the second one's size. */
  lemma RsaByKeyType(keyType: string, blob: Bytes, name: Bytes, first: nat, exponent: Bytes, second: nat,
      modulus: Bytes, end: nat)
    requires "rsa-" <= keyType && IsAscii(name)
    requires Reads(blob, 0, name, first) && Reads(blob, first, exponent, second) && Reads(blob, second, modulus, end)
    ensures ParseBlob(keyType, blob) == Some(Rsa(BitLength(FromBytes(modulus))))
  {
  }

  /** An Ed25519 blob is recognised by its name alone. */
  lemma Ed25519RoundTrip(keyType: string, after: Bytes)
    requires !("rsa-" <= keyType)
    ensures ParseBlob(keyType, EncodeString(Octets("ssh-ed25519")) + after) == Some(Ed25519)
  {
    FirstField(Octets("ssh-ed25519"), after);
    assert "ssh-ed25519"[4] == 'e' && "ssh-rsa"[4] == 'r' && "ecdsa-sha2-"[0] == 'e';
  }

  /** A blob with any other name is rejected, unless the key type asks for RSA. */
  lemma OtherNamesRejected(keyType: string, name: string, after: Bytes)
    requires Plain(name) && !("rsa-" <= keyType)
    requires name != "ssh-rsa" && name != "ssh-ed25519" && !("ecdsa-sha2-" <= name)
    ensures ParseBlob(keyType, EncodeString(Octets(name)) + after) == None
  {
    FirstField(Octets(name), after);
  }
}
