/**
 The entities the threat-telemetry service and its views pass around (types.ts).
 Timestamps (`Date`) and the optional AI-written threat fields are not modelled.
 */
module Types {

  /** A value that may be absent: `T | null` in the source, and an optional argument that was left out. */
  datatype Option<+T> = None | Some(value: T) {

    /** The carried value, or `default` when absent (the source's `x || d` and default arguments). */
    function GetOr(default: T): T {
      match this
      case Some(v) => v
      case None => default
    }
  }

  /** A number `Math.random()` can return: a real in [0, 1). Floating-point rounding is not modelled. */
  type Draw = r: real | 0.0 <= r < 1.0

  datatype Severity = Critical | High | Medium | Low

  datatype ThreatStatus = Active | Mitigated | Investigating

  /** A synthetic security event. The source field `type` is called `threatType` here. */
  datatype Threat = Threat(
    id: string,
    title: string,
    threatType: string,
    severity: Severity,
    sourceIp: string,
    status: ThreatStatus,
    encrypted: bool,
    vectorId: string,
    confidence: int
  )

  datatype Role = Admin | Analyst | Viewer

  datatype User = User(id: string, username: string, role: Role, avatar: string, clearanceLevel: int)

  /** The operation kinds an audit-history entry records. */
  datatype HistoryKind = SEARCH | INSERT | LOGIN | EXPORT

  datatype OpStatus = Success | Failed

  datatype HistoryItem = HistoryItem(
    id: string,
    kind: HistoryKind,
    query: Option<string>,
    details: string,
    status: OpStatus,
    encrypted: bool
  )

  /**
   One search hit. `reasonScore` is the number the source prints (to four places) into its
   match-reason text; the text formatting itself is not modelled.
   */
  datatype SearchResult = SearchResult(
    id: string,
    score: real,
    threat: Threat,
    metadata: map<string, string>,
    reasonScore: real
  )

  datatype SearchMode = Semantic | Hybrid

  /** The literal the source writes for a search mode. */
  function ModeName(m: SearchMode): string {
    match m
    case Semantic => "semantic"
    case Hybrid => "hybrid"
  }

  function Min(a: int, b: int): int {
    if a <= b then a else b
  }

  /** `xs.map(f)`. */
  function MapSeq<A, B>(f: A -> B, xs: seq<A>): (ys: seq<B>)
    ensures |ys| == |xs|
    ensures forall j :: 0 <= j < |xs| ==> ys[j] == f(xs[j])
  {
    seq(|xs|, j requires 0 <= j < |xs| => f(xs[j]))
  }

  /** Mapping a list extended by one item extends the mapped list by that item's image. */
  lemma MapSeqSnoc<A, B>(f: A -> B, xs: seq<A>, x: A)
    ensures MapSeq(f, xs + [x]) == MapSeq(f, xs) + [f(x)]
  {
    assert forall j :: 0 <= j < |xs| ==> (xs + [x])[j] == xs[j];
  }

  predicate StartsWith(s: string, prefix: string) {
    |prefix| <= |s| && s[..|prefix|] == prefix
  }

  /** Decimal rendering of a natural number, as a JavaScript template literal prints it. */
  function NatToString(n: nat): string
    decreases n
  {
    if n < 10 then ["0123456789"[n]] else NatToString(n / 10) + ["0123456789"[n % 10]]
  }
}
