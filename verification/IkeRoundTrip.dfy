/** Messages laid out as the SA_INIT builder lays them out, and what the parser makes of them. */
module IkeRoundTrip {
  import opened Basics
  import opened Ike

  datatype Attribute = Fixed(kind: nat, value: nat) | Variable(kind: nat, bytes: Bytes)
  datatype Transform = Transform(ttype: Byte, id: nat, attributes: seq<Attribute>)
  datatype Proposal = Proposal(number: Byte, protocol: Byte, spi: Bytes, transforms: seq<Transform>)
  datatype Payload = SaPayload(proposals: seq<Proposal>) | OtherPayload(ptype: Byte, body: Bytes)

  /** Everything in the fixed header besides the first payload's type and the length. */
  datatype Header = Header(spi: Bytes, responder: Bytes, version: Byte, exchange: Byte, flags: Byte, id: Bytes)

  // ----- Layout -----

  predicate AttributeOk(a: Attribute) {
    a.kind < 0x8000 && match a case Fixed(_, v) => v < 0x1_0000 case Variable(_, b) => |b| < 0x1_0000
  }

  function AttributeBytes(a: Attribute): (b: Bytes)
    requires AttributeOk(a)
    ensures |b| == if a.Fixed? then 4 else 4 + |a.bytes|
    ensures U16(b[0], b[1]) == if a.Fixed? then 0x8000 + a.kind else a.kind
    ensures U16(b[2], b[3]) == if a.Fixed? then a.value else |a.bytes|
  {
    match a
    case Fixed(kind, value) => E16(0x8000 + kind) + E16(value)
    case Variable(kind, bytes) => E16(kind) + E16(|bytes|) + bytes
  }

  predicate AttributesOk(attributes: seq<Attribute>) {
    forall i :: 0 <= i < |attributes| ==> AttributeOk(attributes[i])
  }

  function AttributesBytes(attributes: seq<Attribute>): Bytes
    requires AttributesOk(attributes)
  {
    if attributes == [] then [] else AttributeBytes(attributes[0]) + AttributesBytes(attributes[1..])
  }

  predicate TransformOk(t: Transform) {
    t.id < 0x1_0000 && AttributesOk(t.attributes) && 8 + |AttributesBytes(t.attributes)| < 0x1_0000
  }

  /** The builder's own transform layout. */
  function IkeTransform(more: bool, ttype: Byte, id: nat, attributes: Bytes): (b: Bytes)
    requires id < 0x1_0000 && 8 + |attributes| < 0x1_0000
    ensures |b| == 8 + |attributes| && LengthAt(b) == |b| && (b[0] == 0 <==> !more)
    ensures b[4] == ttype && U16(b[6], b[7]) == id && b[8..] == attributes
  {
    [if more then 3 else 0, 0] + E16(8 + |attributes|) + [ttype, 0] + E16(id) + attributes
  }

  function TransformBytes(t: Transform, more: bool): Bytes
    requires TransformOk(t)
  {
    IkeTransform(more, t.ttype, t.id, AttributesBytes(t.attributes))
  }

  predicate TransformsOk(ts: seq<Transform>) {
    forall i :: 0 <= i < |ts| ==> TransformOk(ts[i])
  }

  function TransformsBytes(ts: seq<Transform>): Bytes
    requires TransformsOk(ts)
  {
    if ts == [] then [] else TransformBytes(ts[0], |ts| > 1) + TransformsBytes(ts[1..])
  }

  predicate ProposalOk(p: Proposal) {
    |p.spi| < 256 && |p.transforms| < 256 && TransformsOk(p.transforms)
    && 8 + |p.spi| + |TransformsBytes(p.transforms)| < 0x1_0000
  }

  function ProposalHead(p: Proposal, more: bool, length: nat): (b: Bytes)
    requires |p.spi| < 256 && |p.transforms| < 256 && length < 0x1_0000
    ensures |b| == 8 && LengthAt(b) == length && b[6] == |p.spi|
  {
    [if more then 2 else 0, 0] + E16(length) + [p.number, p.protocol, |p.spi|, |p.transforms|]
  }

  function ProposalBytes(p: Proposal, more: bool): Bytes
    requires ProposalOk(p)
  {
    var transforms := TransformsBytes(p.transforms);
    ProposalHead(p, more, 8 + |p.spi| + |transforms|) + p.spi + transforms
  }

  predicate ProposalsOk(ps: seq<Proposal>) {
    forall i :: 0 <= i < |ps| ==> ProposalOk(ps[i])
  }

  function ProposalsBytes(ps: seq<Proposal>): Bytes
    requires ProposalsOk(ps)
  {
    if ps == [] then [] else ProposalBytes(ps[0], |ps| > 1) + ProposalsBytes(ps[1..])
  }

  predicate PayloadOk(p: Payload) {
    match p
    case SaPayload(ps) => ProposalsOk(ps) && 4 + |ProposalsBytes(ps)| < 0x1_0000
    case OtherPayload(ptype, body) => ptype != 0 && ptype != SA && 4 + |body| < 0x1_0000
  }

  function BodyBytes(p: Payload): Bytes
    requires PayloadOk(p)
  {
    match p case SaPayload(ps) => ProposalsBytes(ps) case OtherPayload(_, body) => body
  }

  function TypeOf(p: Payload): Byte {
    match p case SaPayload(_) => SA case OtherPayload(ptype, _) => ptype
  }

  /** Each payload announces the type of the next one; the last announces none. */
  function FirstType(ps: seq<Payload>): Byte {
    if ps == [] then 0 else TypeOf(ps[0])
  }

  predicate PayloadsOk(ps: seq<Payload>) {
    forall i :: 0 <= i < |ps| ==> PayloadOk(ps[i])
  }

  function PayloadBytes(next: Byte, body: Bytes): (b: Bytes)
    requires 4 + |body| < 0x1_0000
    ensures |b| == 4 + |body| && b[0] == next && LengthAt(b) == |b| && b[4..] == body
  {
    [next, 0] + E16(4 + |body|) + body
  }

  function ChainBytes(ps: seq<Payload>): Bytes
    requires PayloadsOk(ps)
  {
    if ps == [] then [] else PayloadBytes(FirstType(ps[1..]), BodyBytes(ps[0])) + ChainBytes(ps[1..])
  }

  predicate HeaderOk(h: Header) {
    |h.spi| == 8 && |h.responder| == 8 && |h.id| == 4
  }

  function HeaderBytes(h: Header, first: Byte, length: nat): (b: Bytes)
    requires HeaderOk(h) && length < 0x1_0000_0000
    ensures |b| == HEADER && b[16] == first && b[20] == h.id[0] && b[..4] == h.spi[..4]
  {
    h.spi + h.responder + [first, h.version, h.exchange, h.flags] + h.id + E32(length)
  }

  /** A whole message, with the non-ESP marker in front when it travels on port 4500. */
  function MessageBytes(natt: bool, h: Header, ps: seq<Payload>): Bytes
    requires HeaderOk(h) && PayloadsOk(ps) && HEADER + |ChainBytes(ps)| < 0x1_0000_0000
  {
    (if natt then MARKER else []) + HeaderBytes(h, FirstType(ps), HEADER + |ChainBytes(ps)|) + ChainBytes(ps)
  }

  // ----- What should be reported -----

  /** The value of the first fixed attribute of type 14. */
  function KeyLengthOf(attributes: seq<Attribute>): Option<nat> {
    if attributes == [] then None
    else if attributes[0].Fixed? && attributes[0].kind == 14 then Some(attributes[0].value)
    else KeyLengthOf(attributes[1..])
  }

  function Expected(proposal: nat, index: nat, t: Transform): seq<Candidate> {
    match AlgorithmOf(t.ttype, t.id, KeyLengthOf(t.attributes))
    case None => []
    case Some(a) => [Candidate(proposal, index, t.ttype, t.id, a)]
  }

  function ExpectedTransforms(ts: seq<Transform>, proposal: nat, index: nat): seq<Candidate> {
    if ts == [] then [] else Expected(proposal, index, ts[0]) + ExpectedTransforms(ts[1..], proposal, index + 1)
  }

  function ExpectedProposals(ps: seq<Proposal>, index: nat): seq<Candidate> {
    if ps == [] then [] else ExpectedTransforms(ps[0].transforms, index, 1) + ExpectedProposals(ps[1..], index + 1)
  }

  /** Only SA payloads count, and each numbers its proposals from 1. */
  function ExpectedPayloads(ps: seq<Payload>): seq<Candidate> {
    if ps == [] then []
    else (match ps[0] case SaPayload(proposals) => ExpectedProposals(proposals, 1) case OtherPayload(_, _) => [])
         + ExpectedPayloads(ps[1..])
  }

  // ----- Round trip, level by level -----

  lemma HighBit(kind: nat)
    requires kind < 0x8000
    ensures (0x8000 + kind) % 0x8000 == kind && kind % 0x8000 == kind
  {
  }

  /** What the first attribute means for the scan. */
  lemma AttributeReads(bytes: Bytes, a: Attribute, size: nat)
    requires AttributeOk(a) && 4 <= size <= |bytes| && size == if a.Fixed? then 4 else 4 + |a.bytes|
    requires U16(bytes[0], bytes[1]) == if a.Fixed? then 0x8000 + a.kind else a.kind
    requires U16(bytes[2], bytes[3]) == if a.Fixed? then a.value else |a.bytes|
    ensures KeyLengthIn(bytes) == if a.Fixed? && a.kind == 14 then Some(a.value) else KeyLengthIn(bytes[size..])
  {
    var head := U16(bytes[0], bytes[1]);
    HighBit(a.kind);
    if a.Fixed? {
      assert head >= 0x8000 && head % 0x8000 == a.kind;
    } else {
      assert head < 0x8000;
    }
  }

  lemma {:induction false} AttributesRoundTrip(attributes: seq<Attribute>)
    requires AttributesOk(attributes)
    ensures KeyLengthIn(AttributesBytes(attributes)) == KeyLengthOf(attributes)
  {
    if attributes != [] {
      var bytes, first, rest := AttributesBytes(attributes), AttributeBytes(attributes[0]),
          AttributesBytes(attributes[1..]);
      AttributesRoundTrip(attributes[1..]);
      Front(first, rest);
      AttributeReads(bytes, attributes[0], |first|);
    }
  }

  lemma Front(first: Bytes, rest: Bytes)
    requires |first| >= 4
    ensures
      var b := first + rest;
      b[0] == first[0] && b[1] == first[1] && b[2] == first[2] && b[3] == first[3] && b[|first|..] == rest
  {
  }

  lemma TransformRoundTrip(t: Transform, more: bool, proposal: nat, index: nat)
    requires TransformOk(t)
    ensures
      var bytes := TransformBytes(t, more);
      |bytes| >= 8 && Report(proposal, index, bytes) == Expected(proposal, index, t)
  {
    AttributesRoundTrip(t.attributes);
  }

  lemma {:induction false} TransformsRoundTrip(ts: seq<Transform>, proposal: nat, index: nat)
    requires TransformsOk(ts)
    ensures TransformsIn(TransformsBytes(ts), proposal, index) == ExpectedTransforms(ts, proposal, index)
    decreases |ts|
  {
    if ts != [] {
      var first, rest := TransformBytes(ts[0], |ts| > 1), TransformsBytes(ts[1..]);
      var bytes := TransformsBytes(ts);
      TransformRoundTrip(ts[0], |ts| > 1, proposal, index);
      TransformsRoundTrip(ts[1..], proposal, index + 1);
      assert bytes[..|first|] == first && bytes[|first|..] == rest;
      assert LengthAt(bytes) == LengthAt(first) == |first|;
    }
  }

  lemma {:induction false} ProposalsRoundTrip(ps: seq<Proposal>, index: nat)
    requires ProposalsOk(ps)
    ensures ProposalsIn(ProposalsBytes(ps), index) == ExpectedProposals(ps, index)
    decreases |ps|
  {
    if ps != [] {
      var p := ps[0];
      var first, rest := ProposalBytes(p, |ps| > 1), ProposalsBytes(ps[1..]);
      var bytes := ProposalsBytes(ps);
      TransformsRoundTrip(p.transforms, index, 1);
      ProposalsRoundTrip(ps[1..], index + 1);
      assert bytes[|first|..] == rest;
      assert LengthAt(bytes) == LengthAt(first) == |first| && bytes[6] == first[6] == |p.spi|;
      assert bytes[8 + |p.spi|..|first|] == TransformsBytes(p.transforms);
    }
  }

  // ----- Where reading stops -----

  lemma TransformRead(first: Bytes, t: Transform, more: bool, after: Bytes, proposal: nat, index: nat)
    requires TransformOk(t) && first == TransformBytes(t, more)
    ensures TransformsIn(first + after, proposal, index)
            == Expected(proposal, index, t) + if more then TransformsIn(after, proposal, index + 1) else []
  {
    var bytes := first + after;
    TransformRoundTrip(t, more, proposal, index);
    Front(first, after);
    assert bytes[..|first|] == first;
    assert LengthAt(bytes) == LengthAt(first) == |first|;
  }

  /** Whatever follows the transform that is marked as the last is ignored. */
  lemma {:induction false} AfterLastIgnored(ts: seq<Transform>, after: Bytes, proposal: nat, index: nat)
    requires TransformsOk(ts) && ts != []
    ensures TransformsIn(TransformsBytes(ts) + after, proposal, index) == ExpectedTransforms(ts, proposal, index)
    decreases |ts|
  {
    var first, rest := TransformBytes(ts[0], |ts| > 1), TransformsBytes(ts[1..]);
    TransformRead(first, ts[0], |ts| > 1, rest + after, proposal, index);
    Associates(first, rest, after);
    if |ts| > 1 {
      AfterLastIgnored(ts[1..], after, proposal, index + 1);
    } else {
      assert ExpectedTransforms(ts[1..], proposal, index + 1) == [];
    }
  }

  /** Transforms that are all marked as followed by more. */
  function ContinuedBytes(ts: seq<Transform>): Bytes
    requires TransformsOk(ts)
  {
    if ts == [] then [] else TransformBytes(ts[0], true) + ContinuedBytes(ts[1..])
  }

  /** Reading stops before a transform that is cut off or states an impossible length, and keeps what came before. */
  lemma {:induction false} MalformedTransformStops(ts: seq<Transform>, bad: Bytes, proposal: nat, index: nat)
    requires TransformsOk(ts)
    requires |bad| >= 8 ==> LengthAt(bad) < 8 || LengthAt(bad) > |bad|
    ensures TransformsIn(ContinuedBytes(ts) + bad, proposal, index) == ExpectedTransforms(ts, proposal, index)
    decreases |ts|
  {
    if ts == [] {
      assert ContinuedBytes(ts) + bad == bad;
    } else {
      var first, rest := TransformBytes(ts[0], true), ContinuedBytes(ts[1..]);
      TransformRead(first, ts[0], true, rest + bad, proposal, index);
      Associates(first, rest, bad);
      MalformedTransformStops(ts[1..], bad, proposal, index + 1);
    }
  }

  lemma ProposalRead(first: Bytes, p: Proposal, more: bool, after: Bytes, index: nat)
    requires ProposalOk(p) && first == ProposalBytes(p, more)
    ensures ProposalsIn(first + after, index)
            == ExpectedTransforms(p.transforms, index, 1) + ProposalsIn(after, index + 1)
  {
    var bytes := first + after;
    TransformsRoundTrip(p.transforms, index, 1);
    Front(first, after);
    assert LengthAt(bytes) == LengthAt(first) == |first| && bytes[6] == first[6] == |p.spi|;
    assert bytes[8 + |p.spi|..|first|] == TransformsBytes(p.transforms);
  }

  /** The same of proposals; their own last-one mark is not looked at. */
  lemma {:induction false} MalformedProposalStops(ps: seq<Proposal>, bad: Bytes, index: nat)
    requires ProposalsOk(ps)
    requires |bad| >= 8 ==> LengthAt(bad) < 8 || LengthAt(bad) > |bad|
    ensures ProposalsIn(ProposalsBytes(ps) + bad, index) == ExpectedProposals(ps, index)
    decreases |ps|
  {
    if ps == [] {
      assert ProposalsBytes(ps) + bad == bad;
    } else {
      var first, rest := ProposalBytes(ps[0], |ps| > 1), ProposalsBytes(ps[1..]);
      ProposalRead(first, ps[0], |ps| > 1, rest + bad, index);
      Associates(first, rest, bad);
      MalformedProposalStops(ps[1..], bad, index + 1);
    }
  }

  /** A proposal whose SPI would reach past its end reports nothing, and the next one is read all the same. */
  lemma OverlongSpiSkipped(bytes: Bytes, index: nat)
    requires |bytes| >= 8 && 8 <= LengthAt(bytes) <= |bytes| && 8 + bytes[6] as int > LengthAt(bytes)
    ensures ProposalsIn(bytes, index) == ProposalsIn(bytes[LengthAt(bytes)..], index + 1)
  {
  }

  /** A payload chain stops at a payload that is cut off or states an impossible length. */
  lemma MalformedPayloadStops(t: Byte, bad: Bytes)
    requires |bad| >= 4 ==> LengthAt(bad) < 4 || LengthAt(bad) > |bad|
    ensures PayloadsIn(t, bad) == []
  {
  }

  // ----- Payloads and messages -----

  lemma PayloadRead(t: Byte, next: Byte, body: Bytes, rest: Bytes)
    requires t != 0 && 4 + |body| < 0x1_0000
    ensures PayloadsIn(t, PayloadBytes(next, body) + rest)
            == (if t == SA then ProposalsIn(body, 1) else []) + PayloadsIn(next, rest)
  {
    var first := PayloadBytes(next, body);
    var bytes := first + rest;
    assert bytes[0] == first[0] && bytes[2] == first[2] && bytes[3] == first[3];
    assert bytes[|first|..] == rest && bytes[4..|first|] == first[4..];
  }

  lemma {:induction false} PayloadsRoundTrip(ps: seq<Payload>, trailing: Bytes)
    requires PayloadsOk(ps)
    ensures PayloadsIn(FirstType(ps), ChainBytes(ps) + trailing) == ExpectedPayloads(ps)
    decreases |ps|
  {
    if ps != [] {
      var next, body := FirstType(ps[1..]), BodyBytes(ps[0]);
      var rest := ChainBytes(ps[1..]) + trailing;
      PayloadsRoundTrip(ps[1..], trailing);
      assert ChainBytes(ps) + trailing == PayloadBytes(next, body) + rest;
      PayloadRead(TypeOf(ps[0]), next, body, rest);
      if ps[0].SaPayload? {
        ProposalsRoundTrip(ps[0].proposals, 1);
      }
    }
  }

  lemma HeaderRead(natt: bool, h: Header, first: Byte, length: nat, rest: Bytes)
    requires HeaderOk(h) && length < 0x1_0000_0000 && (natt || h.spi[..4] != MARKER)
    ensures CandidatesIn((if natt then MARKER else []) + HeaderBytes(h, first, length) + rest)
        == PayloadsIn(first, rest)
  {
    var header := HeaderBytes(h, first, length);
    var message := (if natt then MARKER else []) + header + rest;
    var offset := if natt then 4 else 0;
    assert message[..4] == if natt then MARKER else header[..4];
    assert MARKER <= message <==> message[..4] == MARKER;
    assert message[offset + 16] == header[16];
    assert message[offset + HEADER..] == rest;
  }

  /** Reading back a laid-out message gives exactly its type 1 to 4 transforms, in order, with their
      proposal and transform numbers and key lengths; other payloads and trailing bytes are transparent.
      Without a marker the SPI must not look like one. */
  lemma RoundTrip(natt: bool, h: Header, ps: seq<Payload>, trailing: Bytes)
    requires HeaderOk(h) && PayloadsOk(ps) && HEADER + |ChainBytes(ps)| < 0x1_0000_0000
    requires natt || h.spi[..4] != MARKER
    ensures CandidatesIn(MessageBytes(natt, h, ps) + trailing) == ExpectedPayloads(ps)
  {
    var length := HEADER + |ChainBytes(ps)|;
    var front := (if natt then MARKER else []) + HeaderBytes(h, FirstType(ps), length);
    assert MessageBytes(natt, h, ps) + trailing == front + (ChainBytes(ps) + trailing);
    HeaderRead(natt, h, FirstType(ps), length, ChainBytes(ps) + trailing);
    PayloadsRoundTrip(ps, trailing);
  }

  /** What is read when a header is taken for a marker and the rest: the message id's first byte becomes the
      first payload type, and four bytes of the payloads go missing. */
  function Misread(h: Header, rest: Bytes): seq<Candidate>
    requires HeaderOk(h)
  {
    if |rest| < 4 then [] else PayloadsIn(h.id[0], rest[4..])
  }

  lemma MistakenHeader(h: Header, first: Byte, length: nat, rest: Bytes)
    requires HeaderOk(h) && length < 0x1_0000_0000 && h.spi[..4] == MARKER
    ensures CandidatesIn([] + HeaderBytes(h, first, length) + rest) == Misread(h, rest)
  {
    var header := HeaderBytes(h, first, length);
    var message := [] + header + rest;
    assert message[..4] == header[..4];
    assert MARKER <= message;
    if |rest| >= 4 {
      assert message[4 + 16] == header[20];
      assert message[4 + HEADER..] == rest[4..];
    }
  }

  lemma MistakenMessage(h: Header, ps: seq<Payload>, trailing: Bytes)
    requires HeaderOk(h) && PayloadsOk(ps) && HEADER + |ChainBytes(ps)| < 0x1_0000_0000 && h.spi[..4] == MARKER
    ensures CandidatesIn(MessageBytes(false, h, ps) + trailing) == Misread(h, ChainBytes(ps) + trailing)
  {
    var length := HEADER + |ChainBytes(ps)|;
    var front: Bytes := [] + HeaderBytes(h, FirstType(ps), length);
    assert MessageBytes(false, h, ps) + trailing == front + (ChainBytes(ps) + trailing);
    MistakenHeader(h, FirstType(ps), length, ChainBytes(ps) + trailing);
  }

  /** Without a marker the round trip holds exactly when the SPI does not look like one, or what is misread
      happens to be the same.  In an SA_INIT exchange, whose message id is zero, nothing is misread: then it
      holds exactly when the SPI does not look like a marker or there is nothing to lose. */
  lemma UnmarkedExactly(h: Header, ps: seq<Payload>, trailing: Bytes)
    requires HeaderOk(h) && PayloadsOk(ps) && HEADER + |ChainBytes(ps)| < 0x1_0000_0000
    ensures
      var holds := CandidatesIn(MessageBytes(false, h, ps) + trailing) == ExpectedPayloads(ps);
      && (holds <==> h.spi[..4] != MARKER || Misread(h, ChainBytes(ps) + trailing) == ExpectedPayloads(ps))
      && (h.id[0] == 0 ==> (holds <==> h.spi[..4] != MARKER || ExpectedPayloads(ps) == []))
  {
    if h.spi[..4] != MARKER {
      RoundTrip(false, h, ps, trailing);
    } else {
      MistakenMessage(h, ps, trailing);
    }
  }

  // ----- The builder -----

  /** The SA payload as the builder writes it, byte for byte. */
  function BuiltTransforms(): (b: Bytes)
    ensures |b| == 36
  {
    IkeTransform(true, 1, 12, E16(0x800E) + E16(256)) + IkeTransform(true, 2, 5, [])
    + IkeTransform(true, 3, 12, []) + IkeTransform(false, 4, 14, [])
  }

  function BuiltSaPayload(): (b: Bytes)
    ensures |b| == 48
  {
    var transforms := BuiltTransforms();
    var proposal := [0, 0] + E16(8 + |transforms|) + [1, 1, 0, 4] + transforms;
    [34, 0] + E16(4 + |proposal|) + proposal
  }

  /** The whole packet; the random SPI, key-exchange data and nonce are parameters. */
  function BuildSaInit(natt: bool, spi: Bytes, keyExchange: Bytes, nonce: Bytes): Bytes
    requires |spi| == 8 && |keyExchange| == 256 && |nonce| == 32
  {
    var kePayload := [40, 0] + E16(4 + (4 + |keyExchange|)) + (E16(14) + E16(0) + keyExchange);
    var noncePayload := [0, 0] + E16(4 + |nonce|) + nonce;
    var body := BuiltSaPayload() + kePayload + noncePayload;
    var header := spi + [0, 0, 0, 0, 0, 0, 0, 0] + [33, 0x20, 34, 8] + [0, 0, 0, 0] + E32(28 + |body|);
    (if natt then [0, 0, 0, 0] else []) + header + body
  }

  function Offer(): seq<Transform> {
    [Transform(1, 12, [Fixed(14, 256)]), Transform(2, 5, []), Transform(3, 12, []), Transform(4, 14, [])]
  }

  lemma OfferBytes()
    ensures TransformsOk(Offer()) && TransformsBytes(Offer()) == BuiltTransforms()
  {
    var ts := Offer();
    OfferedAttributes();
    assert ts[1..] == [ts[1], ts[2], ts[3]] && ts[1..][1..] == [ts[2], ts[3]] && ts[1..][1..][1..] == [ts[3]];
    LastTransform(ts[3]);
    NextTransform([ts[2], ts[3]]);
    NextTransform(ts[1..]);
    NextTransform(ts);
    Regroup(TransformBytes(ts[0], true), TransformBytes(ts[1], true), TransformBytes(ts[2], true),
        TransformBytes(ts[3], false));
  }

  lemma OfferedAttributes()
    ensures AttributesOk([]) && AttributesBytes([]) == []
    ensures AttributesOk([Fixed(14, 256)]) && AttributesBytes([Fixed(14, 256)]) == E16(0x800E) + E16(256)
  {
    var key := [Fixed(14, 256)];
    assert key[1..] == [];
    assert AttributesBytes(key) == AttributeBytes(key[0]) + AttributesBytes([]);
  }

  lemma NextTransform(ts: seq<Transform>)
    requires TransformsOk(ts) && |ts| > 1
    ensures TransformsBytes(ts) == TransformBytes(ts[0], true) + TransformsBytes(ts[1..])
  {
  }

  lemma LastTransform(t: Transform)
    requires TransformOk(t)
    ensures TransformsBytes([t]) == TransformBytes(t, false)
  {
    assert [t][1..] == [];
  }

  lemma Regroup(a: Bytes, b: Bytes, c: Bytes, d: Bytes)
    ensures a + (b + (c + d)) == a + b + c + d
  {
  }

  /** The payloads that the builder sends. */
  function InitPayloads(keyExchange: Bytes, nonce: Bytes): seq<Payload> {
    [SaPayload([Proposal(1, 1, [], Offer())]), OtherPayload(34, E16(14) + E16(0) + keyExchange),
        OtherPayload(40, nonce)]
  }

  lemma SaPayloadBytes(keyExchange: Bytes, nonce: Bytes)
    requires |keyExchange| == 256 && |nonce| == 32
    ensures
      var ps := InitPayloads(keyExchange, nonce);
      PayloadOk(ps[0]) && PayloadBytes(34, BodyBytes(ps[0])) == BuiltSaPayload()
  {
    SaBody();
    WrapSaBody();
  }

  lemma SaBody()
    ensures
      var p := Proposal(1, 1, [], Offer());
      ProposalsOk([p]) && ProposalsBytes([p]) == [0, 0] + E16(44) + [1, 1, 0, 4] + BuiltTransforms()
  {
    OfferedProposal();
    LastProposal(Proposal(1, 1, [], Offer()));
  }

  lemma WrapSaBody()
    ensures
      var body := [0, 0] + E16(44) + [1, 1, 0, 4] + BuiltTransforms();
      |body| == 44 && PayloadBytes(34, body) == BuiltSaPayload()
  {
  }

  lemma LastProposal(p: Proposal)
    requires ProposalOk(p)
    ensures ProposalsBytes([p]) == ProposalBytes(p, false)
  {
    assert [p][1..] == [];
  }

  lemma OfferedProposal()
    ensures
      var p := Proposal(1, 1, [], Offer());
      ProposalOk(p) && ProposalBytes(p, false) == [0, 0] + E16(44) + [1, 1, 0, 4] + BuiltTransforms()
  {
    OfferBytes();
    var p := Proposal(1, 1, [], Offer());
    assert ProposalHead(p, false, 44) == [0, 0] + E16(44) + [1, 1, 0, 4];
    assert ProposalHead(p, false, 44) + [] == ProposalHead(p, false, 44);
  }

  /** The builder's packet is such a message. */
  lemma BuilderLaysOut(natt: bool, spi: Bytes, keyExchange: Bytes, nonce: Bytes)
    requires |spi| == 8 && |keyExchange| == 256 && |nonce| == 32
    ensures
      var h := Header(spi, [0, 0, 0, 0, 0, 0, 0, 0], 0x20, 34, 8, [0, 0, 0, 0]);
      var ps := InitPayloads(keyExchange, nonce);
      && PayloadsOk(ps) && HEADER + |ChainBytes(ps)| < 0x1_0000_0000
      && BuildSaInit(natt, spi, keyExchange, nonce) == MessageBytes(natt, h, ps)
  {
    ChainOfThree(keyExchange, nonce);
  }

  lemma ChainOfThree(keyExchange: Bytes, nonce: Bytes)
    requires |keyExchange| == 256 && |nonce| == 32
    ensures
      var ps := InitPayloads(keyExchange, nonce);
      PayloadsOk(ps) && ChainBytes(ps) == BuiltSaPayload() + PayloadBytes(40, E16(14) + E16(0) + keyExchange)
          + PayloadBytes(0, nonce)
  {
    var ps := InitPayloads(keyExchange, nonce);
    SaPayloadBytes(keyExchange, nonce);
    assert ps[1..] == [ps[1], ps[2]] && ps[1..][1..] == [ps[2]];
    assert PayloadOk(ps[1]) && PayloadOk(ps[2]);
    LastPayload(ps[2]);
    NextPayload([ps[1], ps[2]]);
    NextPayload(ps);
    Associates(BuiltSaPayload(), PayloadBytes(40, E16(14) + E16(0) + keyExchange), PayloadBytes(0, nonce));
  }

  lemma NextPayload(ps: seq<Payload>)
    requires PayloadsOk(ps) && |ps| > 1
    ensures ChainBytes(ps) == PayloadBytes(TypeOf(ps[1]), BodyBytes(ps[0])) + ChainBytes(ps[1..])
  {
  }

  lemma LastPayload(p: Payload)
    requires PayloadOk(p)
    ensures ChainBytes([p]) == PayloadBytes(0, BodyBytes(p))
  {
    assert [p][1..] == [];
  }

  lemma Associates(a: Bytes, b: Bytes, c: Bytes)
    ensures a + (b + c) == a + b + c
  {
  }

  /** Echoed back, the offer is recognised as what it is. */
  lemma OfferIsRecognised(natt: bool, spi: Bytes, keyExchange: Bytes, nonce: Bytes, trailing: Bytes)
    requires |spi| == 8 && |keyExchange| == 256 && |nonce| == 32 && (natt || spi[..4] != MARKER)
    ensures CandidatesIn(BuildSaInit(natt, spi, keyExchange, nonce) + trailing) ==
            [Candidate(1, 1, 1, 12, Keyed(AesCbc, 256)), Candidate(1, 2, 2, 5, Named(HmacSha256)),
             Candidate(1, 3, 3, 12, Named(HmacSha256_128)), Candidate(1, 4, 4, 14, Named(Modp2048))]
  {
    BuilderLaysOut(natt, spi, keyExchange, nonce);
    var ps := InitPayloads(keyExchange, nonce);
    RoundTrip(natt, Header(spi, [0, 0, 0, 0, 0, 0, 0, 0], 0x20, 34, 8, [0, 0, 0, 0]), ps, trailing);
    OfferExpected(keyExchange, nonce);
  }

  /** The builder's own packet, sent without a marker under an SPI that looks like one, is lost entirely. */
  lemma LookalikeIsLost(rest: Bytes, keyExchange: Bytes, nonce: Bytes)
    requires |rest| == 4 && |keyExchange| == 256 && |nonce| == 32
    ensures CandidatesIn(BuildSaInit(false, MARKER + rest, keyExchange, nonce)) == []
  {
    var spi := MARKER + rest;
    var h := Header(spi, [0, 0, 0, 0, 0, 0, 0, 0], 0x20, 34, 8, [0, 0, 0, 0]);
    var ps := InitPayloads(keyExchange, nonce);
    BuilderLaysOut(false, spi, keyExchange, nonce);
    assert spi[..4] == MARKER;
    MistakenMessage(h, ps, []);
    assert MessageBytes(false, h, ps) + [] == MessageBytes(false, h, ps);
  }

  lemma OfferExpected(keyExchange: Bytes, nonce: Bytes)
    ensures ExpectedPayloads(InitPayloads(keyExchange, nonce)) ==
            [Candidate(1, 1, 1, 12, Keyed(AesCbc, 256)), Candidate(1, 2, 2, 5, Named(HmacSha256)),
             Candidate(1, 3, 3, 12, Named(HmacSha256_128)), Candidate(1, 4, 4, 14, Named(Modp2048))]
  {
    var ps, ts := InitPayloads(keyExchange, nonce), Offer();
    var p := Proposal(1, 1, [], ts);
    assert ps[1..] == [ps[1], ps[2]] && ps[1..][1..] == [ps[2]] && ps[1..][1..][1..] == [];
    assert ExpectedPayloads([ps[2]]) == [];
    assert ExpectedPayloads(ps[1..]) == [];
    assert ExpectedPayloads(ps) == ExpectedProposals([p], 1);
    assert ExpectedProposals([p], 1) == ExpectedTransforms(ts, 1, 1) + ExpectedProposals([p][1..], 2)
        == ExpectedTransforms(ts, 1, 1);
    OfferedTransforms();
  }

  lemma OfferedTransforms()
    ensures ExpectedTransforms(Offer(), 1, 1) ==
            [Candidate(1, 1, 1, 12, Keyed(AesCbc, 256)), Candidate(1, 2, 2, 5, Named(HmacSha256)),
             Candidate(1, 3, 3, 12, Named(HmacSha256_128)), Candidate(1, 4, 4, 14, Named(Modp2048))]
  {
    var ts := Offer();
    assert ts[1..] == [ts[1], ts[2], ts[3]] && ts[1..][1..] == [ts[2], ts[3]] && ts[1..][1..][1..] == [ts[3]];
    assert KeyLengthOf(ts[0].attributes) == Some(256);
    assert Expected(1, 1, ts[0]) == [Candidate(1, 1, 1, 12, Keyed(AesCbc, 256))];
    assert ExpectedTransforms([ts[3]], 1, 4) == Expected(1, 4, ts[3]);
    assert ExpectedTransforms([ts[2], ts[3]], 1, 3) == Expected(1, 3, ts[2]) + ExpectedTransforms([ts[3]], 1, 4);
    assert ExpectedTransforms(ts[1..], 1, 2) == Expected(1, 2, ts[1]) + ExpectedTransforms([ts[2], ts[3]], 1, 3);
  }
}
