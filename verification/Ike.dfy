/** The IKEv2 SA_INIT response parser: the loops over payloads, proposals, transforms and attributes
    (sections 3.1 to 3.3.5 of RFC 7296), each proved against a recursive reading of the remaining bytes. */
module Ike {

  import opened Basics

  const SA: Byte := 33
  const HEADER: nat := 28

  /** The names in the tables. */
  datatype Known =
    | AesCbc | AesCtr | AesGcm8 | AesGcm12 | AesGcm16 | ChaCha20Poly1305
    | HmacSha1 | HmacSha256 | HmacSha384 | HmacSha512
    | HmacSha1_96 | HmacSha256_128 | HmacSha384_192 | HmacSha512_256
    | Modp2048 | Modp3072 | Modp4096 | Ecp256 | Ecp384 | Ecp521 | Curve25519 | Curve448

  /** A table entry, the type's prefix and the id where the table has none, or a cipher and its key length. */
  datatype Algorithm = Named(name: Known) | Numbered(ttype: nat, id: nat) | Keyed(base: Known, bits: nat)

  /** One reported transform with its position in the message. */
  datatype Candidate = Candidate(proposal: nat, transform: nat, ttype: nat, id: nat, algorithm: Algorithm)

  function Encryption(id: nat): Option<Known> {
    match id
    case 12 => Some(AesCbc) case 13 => Some(AesCtr) case 18 => Some(AesGcm8) case 19 => Some(AesGcm12)
    case 20 => Some(AesGcm16) case 28 => Some(ChaCha20Poly1305) case _ => None
  }

  function Prf(id: nat): Option<Known> {
    match id
    case 2 => Some(HmacSha1) case 5 => Some(HmacSha256) case 6 => Some(HmacSha384) case 7 => Some(HmacSha512)
    case _ => None
  }

  function Integrity(id: nat): Option<Known> {
    match id
    case 2 => Some(HmacSha1_96) case 12 => Some(HmacSha256_128) case 13 => Some(HmacSha384_192)
    case 14 => Some(HmacSha512_256)
    case _ => None
  }

  function DhGroup(id: nat): Option<Known> {
    match id
    case 14 => Some(Modp2048) case 15 => Some(Modp3072) case 16 => Some(Modp4096) case 19 => Some(Ecp256)
    case 20 => Some(Ecp384) case 21 => Some(Ecp521) case 31 => Some(Curve25519) case 32 => Some(Curve448) case _ => None
  }

  function Lookup(entry: Option<Known>, ttype: nat, id: nat): Algorithm {
    match entry case Some(name) => Named(name) case None => Numbered(ttype, id)
  }

  /** What a transform is reported as, given the key length its attributes carry; nothing for other types. */
  function AlgorithmOf(ttype: nat, id: nat, keyLength: Option<nat>): (r: Option<Algorithm>)
    ensures r.Some? <==> 1 <= ttype <= 4
  {
    if ttype == 1 then
      var base := Lookup(Encryption(id), 1, id);
      if keyLength.Some? && keyLength.value != 0 && (base == Named(AesCbc) || base == Named(AesCtr))
      then Some(Keyed(base.name, keyLength.value))
      else Some(base)
    else if ttype == 2 then Some(Lookup(Prf(id), 2, id))
    else if ttype == 3 then Some(Lookup(Integrity(id), 3, id))
    else if ttype == 4 then Some(Lookup(DhGroup(id), 4, id))
    else None
  }

  /** A key length is reported for AES-CBC and AES-CTR only, when it is given and not zero. */
  lemma KeyedExactly(ttype: nat, id: nat, keyLength: Option<nat>, base: Known, bits: nat)
    ensures AlgorithmOf(ttype, id, keyLength) == Some(Keyed(base, bits)) <==>
      ttype == 1 && keyLength == Some(bits) && bits != 0
          && ((id == 12 && base == AesCbc) || (id == 13 && base == AesCtr))
  {
    match Encryption(id) {
      case None =>
      case Some(_) =>
    }
  }

  /** The type and id a table entry stands for. */
  function Numbers(name: Known): (nat, nat) {
    match name
    case AesCbc => (1, 12) case AesCtr => (1, 13) case AesGcm8 => (1, 18) case AesGcm12 => (1, 19)
    case AesGcm16 => (1, 20) case ChaCha20Poly1305 => (1, 28)
    case HmacSha1 => (2, 2) case HmacSha256 => (2, 5) case HmacSha384 => (2, 6) case HmacSha512 => (2, 7)
    case HmacSha1_96 => (3, 2) case HmacSha256_128 => (3, 12) case HmacSha384_192 => (3, 13)
    case HmacSha512_256 => (3, 14)
    case Modp2048 => (4, 14) case Modp3072 => (4, 15) case Modp4096 => (4, 16) case Ecp256 => (4, 19)
    case Ecp384 => (4, 20) case Ecp521 => (4, 21) case Curve25519 => (4, 31) case Curve448 => (4, 32)
  }

  /** What is reported tells the transform's type and id: by its name where the tables have one, and only there
      by number otherwise. */
  lemma AlgorithmIdentifies(ttype: nat, id: nat, keyLength: Option<nat>)
    requires 1 <= ttype <= 4
    ensures
      match AlgorithmOf(ttype, id, keyLength).value
      case Named(name) => Numbers(name) == (ttype, id)
      case Keyed(base, _) => Numbers(base) == (ttype, id)
      case Numbered(t, i) => (t, i) == (ttype, id) && forall name: Known :: Numbers(name) != (ttype, id)
  {
    forall name: Known
      ensures Numbers(name) == (ttype, id) ==> !AlgorithmOf(ttype, id, keyLength).value.Numbered?
    {
    }
  }

  // ----- What the remaining bytes mean -----

  /** The first fixed attribute of type 14; a variable one is skipped with its value. */
  function KeyLengthIn(attrs: Bytes): Option<nat>
    decreases |attrs|
  {
    if |attrs| < 4 then None
    else
      var head, value := U16(attrs[0], attrs[1]), U16(attrs[2], attrs[3]);
      var fixed := head >= 0x8000;
      if head % 0x8000 == 14 && fixed then Some(value)
      else if fixed then KeyLengthIn(attrs[4..])
      else if 4 + value > |attrs| then None
      else KeyLengthIn(attrs[4 + value..])
  }

  function Report(proposal: nat, transform: nat, body: Bytes): seq<Candidate>
    requires |body| >= 8
  {
    var ttype, id := body[4], U16(body[6], body[7]);
    match AlgorithmOf(ttype, id, KeyLengthIn(body[8..]))
    case None => []
    case Some(a) => [Candidate(proposal, transform, ttype, id, a)]
  }

  /** Length field of a payload, proposal or transform. */
  function LengthAt(bytes: Bytes): nat
    requires |bytes| >= 4
  {
    U16(bytes[2], bytes[3])
  }

  /** Where the transforms start, past the proposal header and its SPI. */
  function SkipTo(spiSize: Byte): (n: nat)
    ensures n == 8 + spiSize as int
  {
    8 + spiSize as int
  }

  function TransformsIn(bytes: Bytes, proposal: nat, transform: nat): seq<Candidate>
    decreases |bytes|
  {
    if |bytes| < 8 then []
    else
      var n := LengthAt(bytes);
      if n < 8 || n > |bytes| then []
      else Report(proposal, transform, bytes[..n])
           + if bytes[0] == 0 then [] else TransformsIn(bytes[n..], proposal, transform + 1)
  }

  function ProposalsIn(bytes: Bytes, proposal: nat): seq<Candidate>
    decreases |bytes|
  {
    if |bytes| < 8 then []
    else
      var n := LengthAt(bytes);
      if n < 8 || n > |bytes| then []
      else
        var skip := SkipTo(bytes[6]);
        (if skip <= n then TransformsIn(bytes[skip..n], proposal, 1) else [])
        + ProposalsIn(bytes[n..], proposal + 1)
  }

  function PayloadsIn(next: Byte, bytes: Bytes): seq<Candidate>
    decreases |bytes|
  {
    if next == 0 || |bytes| < 4 then []
    else
      var n := LengthAt(bytes);
      if n < 4 || n > |bytes| then []
      else (if next == SA then ProposalsIn(bytes[4..n], 1) else []) + PayloadsIn(bytes[0], bytes[n..])
  }

  /** The non-ESP marker of section 2.2 of RFC 3948. */
  const MARKER: Bytes := [0, 0, 0, 0]

  function CandidatesIn(response: Bytes): seq<Candidate> {
    var offset := if MARKER <= response then 4 else 0;
    if |response| < offset + HEADER then []
    else PayloadsIn(response[offset + 16], response[offset + HEADER..])
  }

  // ----- The parser -----

  /** What is read from some place on. */
  datatype Reading = Reading(list: seq<Candidate>)

  ghost function TransformsFrom(bytes: Bytes, cursor: nat, proposal: nat, transform: nat): Reading
    requires cursor <= |bytes|
  {
    Reading(TransformsIn(bytes[cursor..], proposal, transform))
  }

  ghost function ProposalsFrom(bytes: Bytes, cursor: nat, proposal: nat): Reading
    requires cursor <= |bytes|
  {
    Reading(ProposalsIn(bytes[cursor..], proposal))
  }

  ghost function PayloadsFrom(next: Byte, bytes: Bytes, cursor: nat): Reading
    requires cursor <= |bytes|
  {
    Reading(PayloadsIn(next, bytes[cursor..]))
  }

  /** The candidates found so far, and those still to come. */
  ghost function After(candidates: seq<Candidate>, rest: Reading): Reading {
    Reading(candidates + rest.list)
  }

  lemma AfterBoth(a: seq<Candidate>, b: seq<Candidate>, rest: Reading)
    ensures After(a, After(b, rest)) == After(a + b, rest)
  {
    assert a + (b + rest.list) == (a + b) + rest.list;
  }

  lemma AfterNothing(r: Reading)
    ensures After([], r) == r && After(r.list, Reading([])) == r
  {
    assert [] + r.list == r.list == r.list + [];
  }

  method KeyLength(attrs: Bytes) returns (r: Option<nat>)
    ensures r == KeyLengthIn(attrs)
  {
    var cursor := 0;
    while cursor + 4 <= |attrs|
      invariant 0 <= cursor
      invariant KeyLengthIn(attrs) == if cursor <= |attrs| then KeyLengthIn(attrs[cursor..]) else None
    {
      var head, value := U16(attrs[cursor], attrs[cursor + 1]), U16(attrs[cursor + 2], attrs[cursor + 3]);
      var kind, fixed := head % 0x8000, head >= 0x8000;
      if kind == 14 && fixed {
        return Some(value);
      }
      ghost var rest := attrs[cursor..];
      if fixed {
        assert rest[4..] == attrs[cursor + 4..];
        cursor := cursor + 4;
      } else {
        assert cursor + 4 + value <= |attrs| ==> rest[4 + value..] == attrs[cursor + 4 + value..];
        cursor := cursor + 4 + value;
      }
    }
    return None;
  }

  /** One turn of the transform loop, on the bytes from the cursor on. */
  lemma TransformTurn(bytes: Bytes, cursor: nat, n: nat, proposal: nat, transform: nat)
    requires cursor + 8 <= |bytes| && n == U16(bytes[cursor + 2], bytes[cursor + 3])
    requires 8 <= n <= |bytes| - cursor
    ensures TransformsFrom(bytes, cursor, proposal, transform)
            == After(Report(proposal, transform, bytes[cursor..cursor + n]),
                     if bytes[cursor] == 0 then Reading([])
                     else TransformsFrom(bytes, cursor + n, proposal, transform + 1))
  {
    var rest := bytes[cursor..];
    assert rest[..n] == bytes[cursor..cursor + n] && rest[n..] == bytes[cursor + n..];
  }

  /** Reads the transform at the cursor. */
  method ReportTransform(bytes: Bytes, cursor: nat, n: nat, proposal: nat, transform: nat)
    returns (found: seq<Candidate>)
    requires cursor + 8 <= |bytes| && n == U16(bytes[cursor + 2], bytes[cursor + 3])
    requires 8 <= n <= |bytes| - cursor
    ensures TransformsFrom(bytes, cursor, proposal, transform)
            == After(found,
                     if bytes[cursor] == 0 then Reading([])
                     else TransformsFrom(bytes, cursor + n, proposal, transform + 1))
  {
    var body := bytes[cursor..cursor + n];
    var ttype, id := body[4], U16(body[6], body[7]);
    var keyLength := KeyLength(body[8..]);
    var algorithm := AlgorithmOf(ttype, id, keyLength);
    TransformTurn(bytes, cursor, n, proposal, transform);
    if algorithm.Some? {
      return [Candidate(proposal, transform, ttype, id, algorithm.value)];
    }
    return [];
  }

  /** No further transform fits. */
  lemma TransformsEnd(bytes: Bytes, cursor: nat, proposal: nat, transform: nat)
    requires cursor <= |bytes|
    requires cursor + 8 <= |bytes| ==>
      var n := U16(bytes[cursor + 2], bytes[cursor + 3]); n < 8 || cursor + n > |bytes|
    ensures TransformsFrom(bytes, cursor, proposal, transform) == Reading([])
  {
  }

  method ParseTransforms(proposal: Bytes, index: nat) returns (candidates: seq<Candidate>)
    requires |proposal| >= 8
    ensures
      var skip := SkipTo(proposal[6]);
      Reading(candidates) == if skip <= |proposal| then TransformsFrom(proposal, skip, index, 1) else Reading([])
  {
    candidates := [];
    var cursor := SkipTo(proposal[6]);
    if cursor > |proposal| {
      return;
    }
    var transform := 0;
    ghost var all := TransformsFrom(proposal, cursor, index, 1);
    AfterNothing(all);
    while cursor + 8 <= |proposal|
      invariant cursor <= |proposal| && all == After(candidates, TransformsFrom(proposal, cursor, index, transform + 1))
      decreases |proposal| - cursor
    {
      var n := U16(proposal[cursor + 2], proposal[cursor + 3]);
      if n < 8 || cursor + n > |proposal| {
        break;
      }
      transform := transform + 1;
      var found := ReportTransform(proposal, cursor, n, index, transform);
      if proposal[cursor] == 0 {
        AfterBoth(candidates, found, Reading([]));
        candidates := candidates + found;
        AfterNothing(Reading(candidates));
        return;
      }
      AfterBoth(candidates, found, TransformsFrom(proposal, cursor + n, index, transform + 1));
      candidates := candidates + found;
      cursor := cursor + n;
    }
    TransformsEnd(proposal, cursor, index, transform + 1);
    AfterNothing(Reading(candidates));
  }

  lemma ProposalTurn(bytes: Bytes, cursor: nat, n: nat, index: nat)
    requires cursor + 8 <= |bytes| && n == U16(bytes[cursor + 2], bytes[cursor + 3])
    requires 8 <= n <= |bytes| - cursor
    ensures
      var proposal := bytes[cursor..cursor + n];
      var skip := SkipTo(proposal[6]);
      ProposalsFrom(bytes, cursor, index)
      == After((if skip <= n then TransformsFrom(proposal, skip, index, 1) else Reading([])).list,
               ProposalsFrom(bytes, cursor + n, index + 1))
  {
    var rest := bytes[cursor..];
    var proposal := bytes[cursor..cursor + n];
    var skip := SkipTo(proposal[6]);
    assert rest[n..] == bytes[cursor + n..];
    assert skip <= n ==> rest[skip..n] == proposal[skip..];
  }

  lemma ProposalsEnd(bytes: Bytes, cursor: nat, index: nat)
    requires cursor <= |bytes|
    requires cursor + 8 <= |bytes| ==>
      var n := U16(bytes[cursor + 2], bytes[cursor + 3]); n < 8 || cursor + n > |bytes|
    ensures ProposalsFrom(bytes, cursor, index) == Reading([])
  {
  }

  method ParseProposals(body: Bytes) returns (candidates: seq<Candidate>)
    ensures candidates == ProposalsIn(body, 1)
  {
    candidates := [];
    var cursor, index := 0, 0;
    assert body[0..] == body;
    ghost var all := ProposalsFrom(body, 0, 1);
    AfterNothing(all);
    while cursor + 8 <= |body|
      invariant 0 <= cursor <= |body| && all == After(candidates, ProposalsFrom(body, cursor, index + 1))
      decreases |body| - cursor
    {
      var n := U16(body[cursor + 2], body[cursor + 3]);
      if n < 8 || cursor + n > |body| {
        break;
      }
      index := index + 1;
      ProposalTurn(body, cursor, n, index);
      var found := ParseTransforms(body[cursor..cursor + n], index);
      AfterBoth(candidates, found, ProposalsFrom(body, cursor + n, index + 1));
      candidates := candidates + found;
      cursor := cursor + n;
    }
    ProposalsEnd(body, cursor, index + 1);
    AfterNothing(Reading(candidates));
  }

  lemma PayloadTurn(next: Byte, bytes: Bytes, cursor: nat, n: nat)
    requires next != 0 && cursor + 4 <= |bytes| && n == U16(bytes[cursor + 2], bytes[cursor + 3])
    requires 4 <= n <= |bytes| - cursor
    ensures PayloadsFrom(next, bytes, cursor)
            == After(if next == SA then ProposalsIn(bytes[cursor + 4..cursor + n], 1) else [],
                     PayloadsFrom(bytes[cursor], bytes, cursor + n))
  {
    var rest := bytes[cursor..];
    assert rest[4..n] == bytes[cursor + 4..cursor + n] && rest[n..] == bytes[cursor + n..];
  }

  /** Reads the payload at the cursor. */
  method ReportPayload(next: Byte, bytes: Bytes, cursor: nat, n: nat) returns (found: seq<Candidate>)
    requires next != 0 && cursor + 4 <= |bytes| && n == U16(bytes[cursor + 2], bytes[cursor + 3])
    requires 4 <= n <= |bytes| - cursor
    ensures PayloadsFrom(next, bytes, cursor) == After(found, PayloadsFrom(bytes[cursor], bytes, cursor + n))
  {
    PayloadTurn(next, bytes, cursor, n);
    found := [];
    if next == SA {
      found := ParseProposals(bytes[cursor + 4..cursor + n]);
    }
  }

  /** One turn of the payload loop. */
  method TakePayload(next: Byte, bytes: Bytes, cursor: nat, n: nat, before: seq<Candidate>)
    returns (candidates: seq<Candidate>)
    requires next != 0 && cursor + 4 <= |bytes| && n == U16(bytes[cursor + 2], bytes[cursor + 3])
    requires 4 <= n <= |bytes| - cursor
    ensures After(candidates, PayloadsFrom(bytes[cursor], bytes, cursor + n))
        == After(before, PayloadsFrom(next, bytes, cursor))
  {
    var found := ReportPayload(next, bytes, cursor, n);
    AfterBoth(before, found, PayloadsFrom(bytes[cursor], bytes, cursor + n));
    candidates := before + found;
  }

  lemma PayloadsEnd(next: Byte, bytes: Bytes, cursor: nat)
    requires cursor <= |bytes|
    requires next != 0 && cursor + 4 <= |bytes| ==>
      var n := U16(bytes[cursor + 2], bytes[cursor + 3]); n < 4 || cursor + n > |bytes|
    ensures PayloadsFrom(next, bytes, cursor) == Reading([])
  {
  }

  method ParsePayloads(response: Bytes, start: nat, first: Byte) returns (candidates: seq<Candidate>)
    requires start <= |response|
    ensures Reading(candidates) == PayloadsFrom(first, response, start)
  {
    candidates := [];
    var next, cursor := first, start;
    ghost var all := PayloadsFrom(first, response, start);
    AfterNothing(all);
    while next != 0 && cursor + 4 <= |response|
      invariant cursor <= |response| && all == After(candidates, PayloadsFrom(next, response, cursor))
      decreases |response| - cursor
    {
      var payloadNext, n := response[cursor], U16(response[cursor + 2], response[cursor + 3]);
      if n < 4 || cursor + n > |response| {
        break;
      }
      candidates := TakePayload(next, response, cursor, n, candidates);
      next := payloadNext;
      cursor := cursor + n;
    }
    PayloadsEnd(next, response, cursor);
    AfterNothing(Reading(candidates));
  }

  method ParseResponse(response: Bytes) returns (candidates: seq<Candidate>)
    ensures candidates == CandidatesIn(response)
  {
    var offset := if MARKER <= response then 4 else 0;
    if |response| < offset + HEADER {
      return [];
    }
    candidates := ParsePayloads(response, offset + HEADER, response[offset + 16]);
  }

  // ----- Size -----

  lemma {:induction false} TransformsFit(bytes: Bytes, proposal: nat, transform: nat)
    ensures 8 * |TransformsIn(bytes, proposal, transform)| <= |bytes|
    decreases |bytes|
  {
    if |bytes| >= 8 && 8 <= LengthAt(bytes) <= |bytes| {
      TransformsFit(bytes[LengthAt(bytes)..], proposal, transform + 1);
    }
  }

  lemma {:induction false} ProposalsFit(bytes: Bytes, proposal: nat)
    ensures var n := |ProposalsIn(bytes, proposal)|; n > 0 ==> 8 * n + 8 <= |bytes|
    decreases |bytes|
  {
    if |bytes| >= 8 && 8 <= LengthAt(bytes) <= |bytes| {
      var n := LengthAt(bytes);
      var skip := SkipTo(bytes[6]);
      if skip <= n {
        TransformsFit(bytes[skip..n], proposal, 1);
      }
      ProposalsFit(bytes[n..], proposal + 1);
    }
  }

  lemma {:induction false} PayloadsFit(next: Byte, bytes: Bytes)
    ensures var n := |PayloadsIn(next, bytes)|; n > 0 ==> 8 * n + 12 <= |bytes|
    decreases |bytes|
  {
    if next != 0 && |bytes| >= 4 && 4 <= LengthAt(bytes) <= |bytes| {
      ProposalsFit(bytes[4..LengthAt(bytes)], 1);
      PayloadsFit(bytes[0], bytes[LengthAt(bytes)..]);
    }
  }

  /** Eight bytes a candidate, after the message, payload and proposal headers. */
  lemma CandidatesFit(response: Bytes)
    ensures var n := |CandidatesIn(response)|; n > 0 ==> 8 * n + 40 <= |response|
  {
    var offset := if MARKER <= response then 4 else 0;
    if |response| >= offset + HEADER {
      PayloadsFit(response[offset + 16], response[offset + HEADER..]);
    }
  }

  // ----- Truncation -----

  lemma PrefixAfter(own: seq<Candidate>, a: seq<Candidate>, b: seq<Candidate>)
    requires a <= b
    ensures own + a <= own + b
  {
  }

  /** The first payload of a message cut after it. */
  lemma PayloadCut(next: Byte, bytes: Bytes, cut: nat)
    requires next != 0 && 4 <= cut <= |bytes| && 4 <= LengthAt(bytes) <= cut
    ensures
      var n := LengthAt(bytes);
      var own := if next == SA then ProposalsIn(bytes[4..n], 1) else [];
      && PayloadsIn(next, bytes) == own + PayloadsIn(bytes[0], bytes[n..])
      && PayloadsIn(next, bytes[..cut]) == own + PayloadsIn(bytes[0], bytes[n..][..cut - n])
  {
    var short, n := bytes[..cut], LengthAt(bytes);
    assert short[4..n] == bytes[4..n] && short[n..] == bytes[n..][..cut - n];
    assert LengthAt(short) == n && short[0] == bytes[0];
  }

  lemma {:induction false} PayloadsTruncate(next: Byte, bytes: Bytes, cut: nat)
    requires cut <= |bytes|
    ensures PayloadsIn(next, bytes[..cut]) <= PayloadsIn(next, bytes)
    decreases |bytes|
  {
    if next != 0 && cut >= 4 && 4 <= LengthAt(bytes) <= cut {
      var n := LengthAt(bytes);
      PayloadsTruncate(bytes[0], bytes[n..], cut - n);
      PayloadCut(next, bytes, cut);
      PrefixAfter(if next == SA then ProposalsIn(bytes[4..n], 1) else [], PayloadsIn(bytes[0], bytes[n..][..cut - n]),
        PayloadsIn(bytes[0], bytes[n..]));
    } else {
      assert PayloadsIn(next, bytes[..cut]) == [];
    }
  }

  /** A message cut short anywhere yields a prefix of the candidates. */
  lemma TruncationIsMonotone(response: Bytes, cut: nat)
    requires cut <= |response|
    ensures CandidatesIn(response[..cut]) <= CandidatesIn(response)
  {
    if cut >= 4 {
      assert MARKER <= response[..cut] <==> MARKER <= response;
    }
    var offset := if MARKER <= response then 4 else 0;
    if cut >= offset + HEADER {
      var k := offset + HEADER;
      PayloadsTruncate(response[offset + 16], response[k..], cut - k);
      assert response[..cut][k..] == response[k..][..cut - k];
    }
  }
}
