/**
 The mock vector-database service `CyborgDBService` (services/cyborgdb.ts) as an immutable
 state record and pure transitions. Every `Math.random()` the source calls is a `Draw`
 argument and every `generateId()` a string argument; simulated latency is not modelled,
 so each operation is one atomic step.
 */
module CyborgDB {
  import opened Types
  import Feed
  import Ranking

  const ThreatTypes: seq<string> :=
    ["Ransomware", "Phishing", "DDoS", "SQL Injection", "XSS", "Zero-day", "APT", "Brute Force"]
  const Severities: seq<Severity> := [Critical, High, Medium, Low]

  const SeedCount: nat := 50
  const ThreatCap: nat := 200
  const SearchLimit: nat := 8
  const VectorDimensions: nat := 768
  const SecurityScore: int := 98
  const DefaultUsername: string := "SecOp_Admin"
  const AvatarBase: string := "https://api.dicebear.com/7.x/avataaars/svg?seed="
  const AdminClearance: int := 5
  const IndexName: string := "CyborgDB Secure Index"

  /** `Math.floor(draw * n)`: a uniform index below `n`. */
  function Pick(draw: Draw, n: nat): (i: nat)
    requires n > 0
    ensures i < n
  {
    var x := draw * n as real;
    assert 0.0 <= x < n as real by { ScaleBelow(draw, n as real); }
    x.Floor
  }

  /** Scaling a draw by a positive length stays below that length. */
  lemma ScaleBelow(r: real, m: real)
    requires 0.0 <= r < 1.0 && m > 0.0
    ensures 0.0 <= r * m < m
  {
    assert m - r * m == (1.0 - r) * m;
  }

  /** Values of `Math.floor(Math.random() * n)` for the lengths the generator uses: an index below n. */
  type TypeIndex = i: nat | i < 8
  type SeverityIndex = i: nat | i < 4
  type NodeNumber = i: nat | i < 50
  type Octet = i: nat | i < 255
  type ConfidenceStep = i: nat | i < 14

  /**
   The random values and generated ids one call of `generateMockThreat` consumes, in call
   order; each index is what `Pick` returns for the underlying draw.
   */
  datatype ThreatDraw = ThreatDraw(
    id: string,
    titleType: TypeIndex,
    node: NodeNumber,
    kind: TypeIndex,
    severity: SeverityIndex,
    ipThird: Octet,
    ipFourth: Octet,
    vectorKey: string,
    confidence: ConfidenceStep
  )

  /** What every threat the service generates satisfies. */
  predicate WellFormedThreat(t: Threat) {
    && t.status == Active
    && t.encrypted
    && 85 <= t.confidence <= 98
    && t.threatType in ThreatTypes
    && StartsWith(t.vectorId, "vec_")
  }

  /** The title names an attack type and a node number, each from its own draw. */
  function MockTitle(d: ThreatDraw): (title: string)
    ensures StartsWith(title, ThreatTypes[d.titleType])
  {
    ThreatTypes[d.titleType] + " detected on Node " + NatToString(d.node)
  }

  function MockSourceIp(d: ThreatDraw): (ip: string)
    ensures StartsWith(ip, "192.168.")
  {
    "192.168." + NatToString(d.ipThird) + "." + NatToString(d.ipFourth)
  }

  function GenerateMockThreat(d: ThreatDraw): (t: Threat)
    ensures WellFormedThreat(t)
    ensures t.id == d.id
    ensures t.threatType == ThreatTypes[d.kind]
    ensures t.severity == Severities[d.severity]
    ensures t.vectorId == "vec_" + d.vectorKey
    ensures StartsWith(t.title, ThreatTypes[d.titleType])
    ensures t.confidence == 85 + d.confidence
    ensures StartsWith(t.sourceIp, "192.168.")
  {
    Threat(
      id := d.id,
      title := MockTitle(d),
      threatType := ThreatTypes[d.kind],
      severity := Severities[d.severity],
      sourceIp := MockSourceIp(d),
      status := Active,
      encrypted := true,
      vectorId := "vec_" + d.vectorKey,
      confidence := 85 + d.confidence
    )
  }

  /** A threat whose title names one attack type while its `threatType` is another. */
  lemma TitleAndTypeAreIndependent()
    ensures var t := GenerateMockThreat(ThreatDraw("a", 0, 0, 1, 0, 0, 0, "b", 0));
            StartsWith(t.title, "Ransomware") && t.threatType == "Phishing"
  {
  }

  /** The service's whole state. The never-read `logs` array is not modelled. */
  datatype ServiceState = ServiceState(
    threats: seq<Threat>,
    history: seq<HistoryItem>,
    currentUser: Option<User>,
    isConnected: bool
  )

  /** A new state together with what the operation returned. */
  datatype Outcome<T> = Outcome(state: ServiceState, value: T)

  /** The invariant every operation keeps: the buffer within its cap, its threats and the history well-formed. */
  predicate Valid(s: ServiceState) {
    && |s.threats| <= ThreatCap
    && (forall i :: 0 <= i < |s.threats| ==> WellFormedThreat(s.threats[i]))
    && (forall i :: 0 <= i < |s.history| ==> s.history[i].encrypted)
  }

  /** The constructor: 50 generated threats, in draw order, and no session or history. */
  method NewService(draws: seq<ThreatDraw>) returns (s: ServiceState)
    requires |draws| == SeedCount
    ensures |s.threats| == SeedCount
    ensures forall i :: 0 <= i < SeedCount ==> s.threats[i] == GenerateMockThreat(draws[i])
    ensures s.history == [] && s.currentUser == None && s.isConnected
    ensures Valid(s)
  {
    var threats: seq<Threat> := [];
    var i := 0;
    while i < SeedCount
      invariant 0 <= i <= SeedCount
      invariant threats == MapSeq(GenerateMockThreat, draws[..i])
    {
      MapSeqSnoc(GenerateMockThreat, draws[..i], draws[i]);
      assert draws[..i + 1] == draws[..i] + [draws[i]];
      threats := threats + [GenerateMockThreat(draws[i])];
      i := i + 1;
    }
    assert draws[..SeedCount] == draws;
    s := ServiceState(threats, [], None, true);
  }

  /**
   `addToHistory`: records one entry at the head of the history. An omitted `status` is
   `Success`; an omitted `query` stays absent.
   */
  function AddToHistory(
    s: ServiceState, kind: HistoryKind, details: string,
    status: Option<OpStatus>, query: Option<string>, id: string
  ): (r: ServiceState)
    ensures |r.history| == |s.history| + 1
    ensures r.history[1..] == s.history
    ensures r.history[0].id == id && r.history[0].kind == kind && r.history[0].details == details
    ensures r.history[0].query == query && r.history[0].encrypted
    ensures r.history[0].status == (if status.Some? then status.value else Success)
    ensures r.threats == s.threats && r.currentUser == s.currentUser && r.isConnected == s.isConnected
    ensures Valid(s) ==> Valid(r)
  {
    var entry := HistoryItem(id, kind, query, details, status.GetOr(Success), true);
    s.(history := [entry] + s.history)
  }

  /** The history detail text of a login; it names the username exactly as typed. */
  function LoginDetails(username: string): string {
    "User " + username + " authenticated via CyborgDB Biometric Handshake"
  }

  /**
   `login`: always succeeds and replaces any session. An empty username defaults to
   `SecOp_Admin` in the session, while the avatar seed and the history text use the raw input.
   */
  function Login(s: ServiceState, username: string, userKey: string, entryKey: string): (r: Outcome<User>)
    ensures r.state.currentUser == Some(r.value)
    ensures r.value.username == (if username == "" then DefaultUsername else username)
    ensures r.value.username != ""
    ensures r.value.role == Admin && r.value.clearanceLevel == AdminClearance
    ensures r.value.avatar == AvatarBase + username
    ensures StartsWith(r.value.id, "usr_")
    ensures |r.state.history| == |s.history| + 1 && r.state.history[1..] == s.history
    ensures r.state.history[0].kind == LOGIN && r.state.history[0].status == Success
    ensures r.state.history[0].details == LoginDetails(username) && r.state.history[0].query == None
    ensures r.state.threats == s.threats
    ensures Valid(s) ==> Valid(r.state)
  {
    var user := User(
      id := "usr_" + userKey,
      username := if username == "" then DefaultUsername else username,
      role := Admin,
      avatar := AvatarBase + username,
      clearanceLevel := AdminClearance
    );
    var s1 := s.(currentUser := Some(user));
    Outcome(AddToHistory(s1, LOGIN, LoginDetails(username), Some(Success), None, entryKey), user)
  }

  /** `logout`: ends the session and records nothing. */
  function Logout(s: ServiceState): (r: ServiceState)
    ensures r.currentUser == None
    ensures r.threats == s.threats && r.history == s.history && r.isConnected == s.isConnected
    ensures Valid(s) ==> Valid(r)
  {
    s.(currentUser := None)
  }

  function GetCurrentUser(s: ServiceState): Option<User> {
    s.currentUser
  }

  /**
   `getCurrentUser` reports the session the last login or logout left: the user `login`
   returned, or none after `logout`; a search does not change it.
   */
  lemma CurrentUserFollowsSession(
    s: ServiceState, username: string, userKey: string, entryKey: string,
    query: string, mode: Option<SearchMode>, draws: nat -> (Draw, Draw)
  )
    ensures GetCurrentUser(Login(s, username, userKey, entryKey).state) == Some(Login(s, username, userKey, entryKey).value)
    ensures GetCurrentUser(Logout(s)) == None
    ensures GetCurrentUser(Search(s, query, mode, entryKey, draws).state) == GetCurrentUser(s)
  {
  }

  function GetUserHistory(s: ServiceState): seq<HistoryItem> {
    s.history
  }

  datatype Stats = Stats(totalThreats: int, encryptedVectors: int, activeEncryptedQueries: int, securityScore: int)

  /** `getStats`: counts over the buffer, one random query count in [10, 59], and a fixed score. */
  function GetStats(s: ServiceState, draw: Draw): (r: Stats)
    ensures r.totalThreats == |s.threats|
    ensures r.encryptedVectors == VectorDimensions * r.totalThreats
    ensures 10 <= r.activeEncryptedQueries <= 59
    ensures r.securityScore == SecurityScore
  {
    Stats(|s.threats|, |s.threats| * VectorDimensions, Pick(draw, 50) + 10, SecurityScore)
  }

  /**
   The buffer after `unshift(t)` and, when it then exceeds the cap, one `pop()`: the new threat
   at the head, the oldest one dropped. Within the cap this is the bounded feed push.
   */
  function Unshift(threats: seq<Threat>, t: Threat): (r: seq<Threat>)
    ensures |r| == (if |threats| + 1 > ThreatCap then |threats| else |threats| + 1)
    ensures r[0] == t && r[1..] == threats[..|r| - 1]
    ensures |threats| <= ThreatCap ==> r == Feed.Push(t, threats, ThreatCap)
  {
    var grown := [t] + threats;
    if |grown| > ThreatCap then grown[..|grown| - 1] else grown
  }

  /**
   One firing of the `streamThreats` timer. When `fire` exceeds 0.7 a new threat goes to the
   head of the buffer and to the callback (the returned value); otherwise nothing happens.
   */
  function StreamTick(s: ServiceState, fire: Draw, d: ThreatDraw): (r: Outcome<Option<Threat>>)
    ensures r.value.Some? <==> fire > 0.7
    ensures r.value.None? ==> r.state == s
    ensures r.value.Some? ==>
      && r.value.value == GenerateMockThreat(d)
      && r.state.threats == Unshift(s.threats, r.value.value)
    ensures |s.threats| <= ThreatCap ==> |r.state.threats| <= ThreatCap
    ensures r.state.history == s.history && r.state.currentUser == s.currentUser
    ensures Valid(s) ==> Valid(r.state)
  {
    if fire > 0.7 then
      var t := GenerateMockThreat(d);
      Outcome(s.(threats := Unshift(s.threats, t)), Some(t))
    else
      Outcome(s, None)
  }

  /** `0.85 + Math.random() * 0.14`: a similarity score in [0.85, 0.99). */
  function Similarity(draw: Draw): (x: real)
    ensures 0.85 <= x < 0.99
  {
    0.85 + draw * 0.14
  }

  /** One unsorted search hit. Its score and its reason's number come from separate draws. */
  function ScoreResult(t: Threat, draws: (Draw, Draw)): SearchResult {
    SearchResult(t.id, Similarity(draws.0), t, map["source" := IndexName], Similarity(draws.1))
  }

  predicate WellFormedResult(x: SearchResult) {
    x.id == x.threat.id && 0.85 <= x.score < 0.99 && x.metadata == map["source" := IndexName]
  }

  /** The `map` step of a search: threat `ts[i]` is scored with the draw pair `draws(offset + i)`. */
  function ScoreAll(ts: seq<Threat>, draws: nat -> (Draw, Draw), offset: nat): (r: seq<SearchResult>)
    ensures |r| == |ts|
    ensures Ranking.ThreatsOf(r) == ts
    ensures forall x :: x in r ==> WellFormedResult(x)
    decreases |ts|
  {
    if ts == [] then []
    else
      var rest := ScoreAll(ts[1..], draws, offset + 1);
      Ranking.ThreatsOfCons(ScoreResult(ts[0], draws(offset)), rest);
      assert ts == [ts[0]] + ts[1..];
      [ScoreResult(ts[0], draws(offset))] + rest
  }

  /**
   The results of a search over the buffer `threats`: the first (up to) eight threats, scored,
   then ordered by non-increasing score.
   */
  function Rank(threats: seq<Threat>, draws: nat -> (Draw, Draw)): (r: seq<SearchResult>)
    ensures |r| == Min(SearchLimit, |threats|)
    ensures Ranking.SortedByScore(r)
    ensures multiset(Ranking.ThreatsOf(r)) == multiset(threats[..|r|])
    ensures forall x :: x in r ==> WellFormedResult(x)
  {
    var scored := ScoreAll(Feed.Take(threats, SearchLimit), draws, 0);
    Ranking.SortIsSorted(scored);
    Ranking.SortIsPermutation(scored);
    Ranking.SortKeepsThreats(scored);
    var results := Ranking.SortByScore(scored);
    assert |results| == |scored| by {
      assert |multiset(results)| == |multiset(scored)|;
    }
    assert forall x :: x in results ==> x in scored by {
      forall x | x in results ensures x in scored {
        assert x in multiset(results);
      }
    }
    results
  }

  /** The history detail text of a search; the query itself goes into the entry's `query`. */
  function SearchDetails(mode: SearchMode): string {
    "CyborgDB Encrypted Search: \"" + ModeName(mode) + "\" mode"
  }

  /**
   `search`: records one SEARCH entry, then scores the first (up to) eight threats and
   orders them by non-increasing score. The query text does not influence the results.
   An omitted `mode` is `semantic`.
   */
  function Search(
    s: ServiceState, query: string, mode: Option<SearchMode>, entryKey: string, draws: nat -> (Draw, Draw)
  ): (r: Outcome<seq<SearchResult>>)
    ensures r.state.threats == s.threats && r.state.currentUser == s.currentUser
    ensures |r.state.history| == |s.history| + 1 && r.state.history[1..] == s.history
    ensures r.state.history[0].kind == SEARCH && r.state.history[0].query == Some(query)
    ensures r.state.history[0].status == Success
    ensures r.state.history[0].details == SearchDetails(if mode.Some? then mode.value else Semantic)
    ensures r.value == Rank(s.threats, draws)
    ensures Valid(s) ==> Valid(r.state)
  {
    var m := mode.GetOr(Semantic);
    var s1 := AddToHistory(s, SEARCH, SearchDetails(m), Some(Success), Some(query), entryKey);
    Outcome(s1, Rank(s1.threats, draws))
  }

  /** The result's reason can print a different number from the result's own score. */
  lemma ReasonDoesNotEchoScore(t: Threat)
    ensures var x := ScoreResult(t, (0.0, 0.5)); x.reasonScore != x.score
  {
  }
}
