/**
 The live part of the dashboard (components/Dashboard.tsx): the stats counters and the
 eight-item live threat feed, as the stats reply and the threat stream update them.
 Charts and the threat-detail modal are not modelled.
 */
module Dashboard {
  import opened Types
  import Feed
  import CyborgDB

  /** How many threats the live feed shows. */
  const RecentCap: nat := 8

  /** The counters the page shows; the security score is absent until the service's stats arrive. */
  datatype DashboardStats = DashboardStats(
    totalThreats: int,
    encryptedVectors: int,
    activeEncryptedQueries: int,
    securityScore: Option<int>
  )

  datatype DashboardState = DashboardState(stats: DashboardStats, recentThreats: seq<Threat>)

  /** Before any reply: every counter zero, no security score, an empty feed. */
  function Initial(): (st: DashboardState)
    ensures st.stats.totalThreats == 0 && st.stats.encryptedVectors == 0
    ensures st.stats.activeEncryptedQueries == 0 && st.stats.securityScore == None
    ensures st.recentThreats == []
    ensures ShowsWaiting(st)
  {
    DashboardState(DashboardStats(0, 0, 0, None), [])
  }

  /** `getStats().then(setStats)`: the reply replaces all counters; the feed is untouched. */
  function ReceiveStats(st: DashboardState, reply: CyborgDB.Stats): (r: DashboardState)
    ensures r.stats.totalThreats == reply.totalThreats
    ensures r.stats.encryptedVectors == reply.encryptedVectors
    ensures r.stats.activeEncryptedQueries == reply.activeEncryptedQueries
    ensures r.stats.securityScore == Some(reply.securityScore)
    ensures r.recentThreats == st.recentThreats
  {
    st.(stats := DashboardStats(reply.totalThreats, reply.encryptedVectors, reply.activeEncryptedQueries, Some(reply.securityScore)))
  }

  /** The stream callback: the threat goes to the head of the feed and the threat counter goes up by one. */
  function OnStreamedThreat(st: DashboardState, t: Threat): (r: DashboardState)
    ensures r.recentThreats == Feed.Push(t, st.recentThreats, RecentCap)
    ensures |r.recentThreats| <= RecentCap && r.recentThreats[0] == t
    ensures r.stats == st.stats.(totalThreats := st.stats.totalThreats + 1)
    ensures !ShowsWaiting(r)
  {
    DashboardState(
      st.stats.(totalThreats := st.stats.totalThreats + 1),
      Feed.Push(t, st.recentThreats, RecentCap)
    )
  }

  /** The feed shows its "waiting for live data" placeholder exactly while it is empty. */
  function ShowsWaiting(st: DashboardState): bool {
    |st.recentThreats| == 0
  }

  /** The page after `ts` arrive on the stream, `ts[0]` first. */
  function StreamAll(st: DashboardState, ts: seq<Threat>): DashboardState
    decreases |ts|
  {
    if ts == [] then st else StreamAll(OnStreamedThreat(st, ts[0]), ts[1..])
  }

  /**
   After any stream of threats the counter has grown by exactly their number, without a cap,
   while the feed holds the newest eight (newest first) and nothing else has changed.
   */
  lemma {:induction false} StreamCountsEveryThreat(st: DashboardState, ts: seq<Threat>)
    requires |st.recentThreats| <= RecentCap
    ensures StreamAll(st, ts).stats == st.stats.(totalThreats := st.stats.totalThreats + |ts|)
    ensures StreamAll(st, ts).recentThreats == Feed.PushAll(st.recentThreats, ts, RecentCap)
    ensures StreamAll(st, ts).recentThreats == Feed.Take(Feed.Reverse(ts) + st.recentThreats, RecentCap)
    decreases |ts|
  {
    if ts != [] {
      StreamCountsEveryThreat(OnStreamedThreat(st, ts[0]), ts[1..]);
    }
    Feed.PushAllKeepsNewest(st.recentThreats, ts, RecentCap);
  }

  /** Unlike the service's 200-item buffer, the page's counter does not stop at any cap. */
  lemma CounterIsUncapped(ts: seq<Threat>)
    ensures StreamAll(Initial(), ts).stats.totalThreats == |ts|
    ensures |StreamAll(Initial(), ts).recentThreats| == Min(|ts|, RecentCap)
  {
    StreamCountsEveryThreat(Initial(), ts);
    Feed.PushAllBounded(Initial().recentThreats, ts, RecentCap);
  }
}
