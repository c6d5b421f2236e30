/** JSON values as Python sees them after decoding. */
module Json {

  datatype Counted = Handshakes | Negotiations
  datatype Latency = TcpConnect | Handshake | TimeToFirstByte | TotalRequest
  datatype Throughput = ThroughputRps | RequestsPerSecond | ConnectionsPerSecond

  /** Object keys: those some modelled operation reads or writes, and all others. */
  datatype Name =
    | Protocol | ResponseCode | FailureReason | ClientCompatibility | BomRef | MetricsField
    | Successful(of: Counted) | Failed(of: Counted) | Total(of: Counted) | Attempted(of: Counted)
        | SuccessRate(of: Counted)
    | AvailabilityRate | FailureRate | TimeoutRate | BytesSent | BytesReceived
    | LatencyOf(latency: Latency) | ThroughputOf(throughput: Throughput) | P95
    | Profile | ClientProfile | PlainName | Status | CompatibilityStatus | Success
    | SelectedCandidateId | CandidateId | StrategyField | TargetAlgorithm | RationaleField | ConfidenceField
        | EvidenceField
    | Other(key: string)

  datatype Json =
    | JNull
    | JBool(b: bool)
    | JNum(r: real)
    | JStr(s: string)
    | JList(items: seq<Json>)
    | JObj(fields: Object)

  type Object = map<Name, Json>

  /** `m.get(key)`. */
  function Get(m: Object, key: Name): Json {
    if key in m then m[key] else JNull
  }

  predicate Truthy(v: Json) {
    match v
    case JNull => false
    case JBool(b) => b
    case JNum(r) => r != 0.0
    case JStr(s) => s != ""
    case JList(items) => items != []
    case JObj(fields) => fields != map[]
  }

  /** Six values count as false. */
  lemma FalsyExactly(v: Json)
    ensures !Truthy(v) <==> v in {JNull, JBool(false), JNum(0.0), JStr(""), JList([]), JObj(map[])}
  {
  }

  /** `a or b`. */
  function Or(a: Json, b: Json): Json {
    if Truthy(a) then a else b
  }

  /** What Python's library does with text and dictionaries: `str(v)` of what is not text, `str.strip`,
      `str.upper`, a dictionary's insertion order, and a key's spelling. */
  datatype Python = Python(str: Json -> string, strip: string -> string, upper: string -> string,
                           order: Object -> seq<Name>, spell: Name -> string)

  /** `str(v)`. */
  function Text(py: Python, v: Json): string {
    if v.JStr? then v.s else py.str(v)
  }
}
