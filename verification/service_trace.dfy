/**
 Runs of the mock service (services/cyborgdb.ts): any interleaving of logins, logouts,
 searches, stats reads and stream-timer firings, applied one after another. The lemmas here
 state what holds across a whole run rather than one call.
 */
module ServiceTrace {
  import opened Types
  import Feed
  import opened CyborgDB

  /** One service call with the draws and ids it consumes. */
  datatype Op =
    | LoginOp(username: string, userKey: string, entryKey: string)
    | LogoutOp
    | SearchOp(query: string, mode: Option<SearchMode>, entryKey: string, draws: nat -> (Draw, Draw))
    | StatsOp(draw: Draw)
    | TickOp(fire: Draw, threat: ThreatDraw)

  function Step(s: ServiceState, op: Op): ServiceState {
    match op
    case LoginOp(u, uk, ek) => Login(s, u, uk, ek).state
    case LogoutOp => Logout(s)
    case SearchOp(q, m, ek, ds) => Search(s, q, m, ek, ds).state
    case StatsOp(_) => s
    case TickOp(f, d) => StreamTick(s, f, d).state
  }

  function Run(s: ServiceState, ops: seq<Op>): ServiceState
    decreases |ops|
  {
    if ops == [] then s else Run(Step(s, ops[0]), ops[1..])
  }

  /** Calls that write an audit-history entry. */
  predicate Logged(op: Op) {
    op.LoginOp? || op.SearchOp?
  }

  predicate IsSessionOp(op: Op) {
    op.LoginOp? || op.LogoutOp?
  }

  function CountLogged(ops: seq<Op>): nat
    decreases |ops|
  {
    if ops == [] then 0 else (if Logged(ops[0]) then 1 else 0) + CountLogged(ops[1..])
  }

  /** The threats the stream timer inserts during a run, in arrival order. */
  function Arrivals(ops: seq<Op>): seq<Threat>
    decreases |ops|
  {
    if ops == [] then []
    else
      var here := if ops[0].TickOp? && ops[0].fire > 0.7 then [GenerateMockThreat(ops[0].threat)] else [];
      here + Arrivals(ops[1..])
  }

  lemma {:induction false} RunAppend(s: ServiceState, a: seq<Op>, b: seq<Op>)
    ensures Run(s, a + b) == Run(Run(s, a), b)
    decreases |a|
  {
    if a == [] {
      assert a + b == b;
    } else {
      assert (a + b)[1..] == a[1..] + b;
      RunAppend(Step(s, a[0]), a[1..], b);
    }
  }

  /** Every run keeps the service invariant; in particular the buffer never exceeds 200 threats. */
  lemma {:induction false} RunKeepsValid(s: ServiceState, ops: seq<Op>)
    requires Valid(s)
    ensures Valid(Run(s, ops))
    decreases |ops|
  {
    if ops != [] {
      RunKeepsValid(Step(s, ops[0]), ops[1..]);
    }
  }

  /**
   The history grows by exactly one entry per login or search, never loses or rewrites an
   entry, and logouts, stats reads and timer firings add nothing.
   */
  lemma {:induction false} RunHistoryGrowth(s: ServiceState, ops: seq<Op>)
    ensures |Run(s, ops).history| == |s.history| + CountLogged(ops)
    ensures Run(s, ops).history[CountLogged(ops)..] == s.history
    decreases |ops|
  {
    if ops != [] {
      var s1 := Step(s, ops[0]);
      RunHistoryGrowth(s1, ops[1..]);
      assert s1.history[(if Logged(ops[0]) then 1 else 0)..] == s.history;
    }
  }

  /** Without a login or logout in between, every read of the current user returns the same value. */
  lemma {:induction false} RunKeepsSession(s: ServiceState, ops: seq<Op>)
    requires forall i :: 0 <= i < |ops| ==> !IsSessionOp(ops[i])
    ensures GetCurrentUser(Run(s, ops)) == GetCurrentUser(s)
    decreases |ops|
  {
    if ops != [] {
      RunKeepsSession(Step(s, ops[0]), ops[1..]);
    }
  }

  /**
   The last login or logout of a run decides the session: after a logout there is none, after
   a login it holds the typed username, or `SecOp_Admin` for an empty one.
   */
  lemma LastSessionOpDecides(s: ServiceState, before: seq<Op>, op: Op, after: seq<Op>)
    requires IsSessionOp(op)
    requires forall i :: 0 <= i < |after| ==> !IsSessionOp(after[i])
    ensures var u := GetCurrentUser(Run(s, before + [op] + after));
      && (op.LogoutOp? ==> u == None)
      && (op.LoginOp? ==>
            u.Some? && u.value.username == (if op.username == "" then DefaultUsername else op.username))
  {
    RunAppend(s, before + [op], after);
    RunAppend(s, before, [op]);
    RunKeepsSession(Run(s, before + [op]), after);
  }

  /** Only the stream timer touches the buffer: from within the cap, a run pushes exactly the run's arrivals onto it. */
  lemma {:induction false} RunThreatsArePushed(s: ServiceState, ops: seq<Op>)
    requires |s.threats| <= ThreatCap
    ensures Run(s, ops).threats == Feed.PushAll(s.threats, Arrivals(ops), ThreatCap)
    decreases |ops|
  {
    if ops != [] {
      var s1 := Step(s, ops[0]);
      RunThreatsArePushed(s1, ops[1..]);
      var rest := Arrivals(ops[1..]);
      if ops[0].TickOp? && ops[0].fire > 0.7 {
        var t := GenerateMockThreat(ops[0].threat);
        assert Arrivals(ops) == [t] + rest;
        assert s1.threats == Feed.Push(t, s.threats, ThreatCap);
        assert ([t] + rest)[1..] == rest;
      } else {
        assert Arrivals(ops) == rest;
        assert s1.threats == s.threats;
      }
    }
  }

  /**
   Oldest-first eviction over any interleaving: starting within the cap, the buffer is always
   the newest 200 of all inserted threats (newest first) followed by the original buffer.
   */
  lemma RunThreatsAreNewestFirst(s: ServiceState, ops: seq<Op>)
    requires |s.threats| <= ThreatCap
    ensures Run(s, ops).threats == Feed.Take(Feed.Reverse(Arrivals(ops)) + s.threats, ThreatCap)
  {
    RunThreatsArePushed(s, ops);
    Feed.PushAllKeepsNewest(s.threats, Arrivals(ops), ThreatCap);
  }
}
