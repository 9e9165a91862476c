/**
 * The admin dashboard's statistics: the total request count, one entry per
 * team with its member count and request sum, the teams ranked by requests,
 * and the overview's first ten.
 */
module AdminStats {
  import opened Wrappers
  import opened UsageRows

  datatype Team = Team(id: string, name: string)

  /** A user profile; `teamId` is null for a user outside every team. */
  datatype Profile = Profile(id: string, teamId: Option<string>)

  /** A team with its number of members and its summed requests. */
  datatype TeamStat = TeamStat(team: Team, memberCount: nat, requests: nat)

  // ---------------------------------------------------------------------
  // Filters
  // ---------------------------------------------------------------------

  /** The usage rows of team `id`, in their order (`usage.filter(u => u.team_id === team.id)`). */
  function TeamRows(usage: seq<Row>, id: string): seq<Row>
    decreases |usage|
  {
    if usage == [] then []
    else
      var last := usage[|usage| - 1];
      TeamRows(usage[..|usage| - 1], id) + (if last.teamId == id then [last] else [])
  }

  /** A row is among the team's rows exactly when it is a usage row of that team. */
  lemma {:induction false} TeamRowsSpec(usage: seq<Row>, id: string)
    ensures forall u :: u in TeamRows(usage, id) <==> u in usage && u.teamId == id
    decreases |usage|
  {
    if usage != [] {
      TeamRowsSpec(usage[..|usage| - 1], id);
      assert usage == usage[..|usage| - 1] + [usage[|usage| - 1]];
    }
  }

  /** The profiles of team `id` (`profiles.filter(p => p.team_id === team.id)`). */
  function Members(profiles: seq<Profile>, id: string): (r: seq<Profile>)
    ensures forall p :: p in r ==> p in profiles && p.teamId == Some(id)
    ensures forall p :: p in profiles && p.teamId == Some(id) ==> p in r
    ensures |r| <= |profiles|
    ensures forall p :: multiset(r)[p] == if p.teamId == Some(id) then multiset(profiles)[p] else 0
  {
    if profiles == [] then []
    else
      assert profiles == [profiles[0]] + profiles[1..];
      (if profiles[0].teamId == Some(id) then [profiles[0]] else []) + Members(profiles[1..], id)
  }

  /** The identities of `teams`. */
  function TeamIds(teams: seq<Team>): set<string> {
    set t | t in teams :: t.id
  }

  /** The rows whose team is none of `teams` (they count in the total but in no team). */
  function Unassigned(usage: seq<Row>, teams: seq<Team>): seq<Row>
    decreases |usage|
  {
    if usage == [] then []
    else
      var last := usage[|usage| - 1];
      Unassigned(usage[..|usage| - 1], teams) + (if last.teamId in TeamIds(teams) then [] else [last])
  }

  // ---------------------------------------------------------------------
  // Per-team entries and the ranking
  // ---------------------------------------------------------------------

  /** The entry of one team. */
  function StatOf(team: Team, profiles: seq<Profile>, usage: seq<Row>): TeamStat {
    TeamStat(team, |Members(profiles, team.id)|, SumRequests(TeamRows(usage, team.id)))
  }

  /** `teams.map(...)`: one entry per team, in the order of `teams`. */
  function Unranked(teams: seq<Team>, profiles: seq<Profile>, usage: seq<Row>): (r: seq<TeamStat>)
    ensures |r| == |teams|
    ensures forall i :: 0 <= i < |r| ==> r[i] == StatOf(teams[i], profiles, usage)
  {
    if teams == [] then [] else [StatOf(teams[0], profiles, usage)] + Unranked(teams[1..], profiles, usage)
  }

  /** Non-increasing by requests. */
  predicate Ranked(s: seq<TeamStat>) {
    forall i, j :: 0 <= i < j < |s| ==> s[i].requests >= s[j].requests
  }

  /** Insert `x` after every entry with at least as many requests. */
  function Insert(x: TeamStat, s: seq<TeamStat>): seq<TeamStat> {
    if s == [] then [x]
    else if s[0].requests >= x.requests then [s[0]] + Insert(x, s[1..])
    else [x] + s
  }

  /** The sort by `b.requests - a.requests`, as a stable insertion sort. */
  function Rank(s: seq<TeamStat>): seq<TeamStat>
    decreases |s|
  {
    if s == [] then [] else Insert(s[|s| - 1], Rank(s[..|s| - 1]))
  }

  /** The sum of the entries' requests. */
  function StatsTotal(s: seq<TeamStat>): nat {
    if s == [] then 0 else s[0].requests + StatsTotal(s[1..])
  }

  lemma {:induction false} InsertPerm(x: TeamStat, s: seq<TeamStat>)
    ensures multiset(Insert(x, s)) == multiset(s) + multiset{x}
    decreases |s|
  {
    if s != [] && s[0].requests >= x.requests {
      InsertPerm(x, s[1..]);
      assert s == [s[0]] + s[1..];
    }
  }

  lemma {:induction false} InsertTotal(x: TeamStat, s: seq<TeamStat>)
    ensures StatsTotal(Insert(x, s)) == x.requests + StatsTotal(s)
    decreases |s|
  {
    if s != [] && s[0].requests >= x.requests {
      InsertTotal(x, s[1..]);
      assert ([s[0]] + Insert(x, s[1..]))[1..] == Insert(x, s[1..]);
    }
  }

  lemma {:induction false} InsertKeeps(x: TeamStat, s: seq<TeamStat>)
    requires Ranked(s)
    ensures Ranked(Insert(x, s))
    decreases |s|
  {
    if s != [] && s[0].requests >= x.requests {
      var rest := Insert(x, s[1..]);
      InsertKeeps(x, s[1..]);
      forall k | 0 <= k < |rest|
        ensures s[0].requests >= rest[k].requests
      {
        HeadBoundsInsert(x, s, k);
      }
      assert Insert(x, s) == [s[0]] + rest;
    }
  }

  lemma HeadBoundsInsert(x: TeamStat, s: seq<TeamStat>, k: nat)
    requires Ranked(s) && s != [] && s[0].requests >= x.requests
    requires k < |Insert(x, s[1..])|
    ensures s[0].requests >= Insert(x, s[1..])[k].requests
  {
    var rest := Insert(x, s[1..]);
    InsertPerm(x, s[1..]);
    assert rest[k] in multiset(s[1..]) + multiset{x};
    if rest[k] != x {
      assert rest[k] in s[1..];
      var m :| 0 <= m < |s[1..]| && s[1..][m] == rest[k];
      assert s[1..][m] == s[1 + m];
    }
  }

  /** The ranking is sorted non-increasing, is a permutation of its input, and keeps the total. */
  lemma RankIsSortedPermutation(s: seq<TeamStat>)
    ensures Ranked(Rank(s))
    ensures multiset(Rank(s)) == multiset(s)
    ensures StatsTotal(Rank(s)) == StatsTotal(s)
  {
    RankSorted(s);
    RankPerm(s);
    RankTotal(s);
  }

  lemma {:induction false} RankSorted(s: seq<TeamStat>)
    ensures Ranked(Rank(s))
    decreases |s|
  {
    if s != [] {
      RankSorted(s[..|s| - 1]);
      InsertKeeps(s[|s| - 1], Rank(s[..|s| - 1]));
    }
  }

  lemma {:induction false} RankPerm(s: seq<TeamStat>)
    ensures multiset(Rank(s)) == multiset(s)
    decreases |s|
  {
    if s != [] {
      var init, last := s[..|s| - 1], s[|s| - 1];
      RankPerm(init);
      InsertPerm(last, Rank(init));
      assert s == init + [last];
    }
  }

  lemma {:induction false} RankTotal(s: seq<TeamStat>)
    ensures StatsTotal(Rank(s)) == StatsTotal(s)
    decreases |s|
  {
    if s != [] {
      var init, last := s[..|s| - 1], s[|s| - 1];
      RankTotal(init);
      InsertTotal(last, Rank(init));
      assert s == init + [last];
      StatsTotalAppend(init, [last]);
      assert StatsTotal([last]) == last.requests by {
        assert [last][1..] == [];
      }
    }
  }

  lemma {:induction false} StatsTotalAppend(a: seq<TeamStat>, b: seq<TeamStat>)
    ensures StatsTotal(a + b) == StatsTotal(a) + StatsTotal(b)
    decreases |a|
  {
    if a == [] {
      assert a + b == b;
    } else {
      StatsTotalAppend(a[1..], b);
      assert (a + b)[1..] == a[1..] + b;
    }
  }

  /** The team statistics as the dashboard computes them. */
  function TeamStats(teams: seq<Team>, profiles: seq<Profile>, usage: seq<Row>): seq<TeamStat> {
    Rank(Unranked(teams, profiles, usage))
  }

  /**
   * The team statistics hold exactly one entry per team (as a multiset), each
   * with the team's member count and request sum, ranked by requests.
   */
  lemma TeamStatsSpec(teams: seq<Team>, profiles: seq<Profile>, usage: seq<Row>)
    ensures var r := TeamStats(teams, profiles, usage);
      && Ranked(r)
      && multiset(r) == multiset(Unranked(teams, profiles, usage))
      && |r| == |teams|
      && forall e :: e in r ==> e == StatOf(e.team, profiles, usage) && e.team in teams
  {
    var u := Unranked(teams, profiles, usage);
    RankIsSortedPermutation(u);
    var r := Rank(u);
    assert |r| == |multiset(r)| == |multiset(u)| == |u|;
    forall e | e in r
      ensures e == StatOf(e.team, profiles, usage) && e.team in teams
    {
      assert e in multiset(u);
      var i :| 0 <= i < |u| && u[i] == e;
    }
  }

  // ---------------------------------------------------------------------
  // The teams' requests against the total
  // ---------------------------------------------------------------------

  /** The sum over `teams` of each team's request sum. */
  function TeamsTotal(teams: seq<Team>, usage: seq<Row>): nat {
    if teams == [] then 0 else SumRequests(TeamRows(usage, teams[0].id)) + TeamsTotal(teams[1..], usage)
  }

  predicate DistinctIds(teams: seq<Team>) {
    forall i, j :: 0 <= i < j < |teams| ==> teams[i].id != teams[j].id
  }

  lemma {:induction false} UnrankedTotal(teams: seq<Team>, profiles: seq<Profile>, usage: seq<Row>)
    ensures StatsTotal(Unranked(teams, profiles, usage)) == TeamsTotal(teams, usage)
    decreases |teams|
  {
    if teams != [] {
      UnrankedTotal(teams[1..], profiles, usage);
      assert Unranked(teams, profiles, usage)[1..] == Unranked(teams[1..], profiles, usage);
    }
  }

  /** One more row adds its count to the single team it belongs to, if any. */
  lemma {:induction false} TeamsTotalStep(teams: seq<Team>, usage: seq<Row>, u: Row)
    requires DistinctIds(teams)
    ensures TeamsTotal(teams, usage + [u]) ==
      TeamsTotal(teams, usage) + (if u.teamId in TeamIds(teams) then Requests(u) else 0)
    decreases |teams|
  {
    if teams != [] {
      var rest := teams[1..];
      assert DistinctIds(rest);
      TeamsTotalStep(rest, usage, u);
      var t := teams[0];
      assert (usage + [u])[..|usage + [u]| - 1] == usage;
      assert TeamRows(usage + [u], t.id) == TeamRows(usage, t.id) + (if u.teamId == t.id then [u] else []);
      SumRequestsAppend(TeamRows(usage, t.id), if u.teamId == t.id then [u] else []);
      assert SumRequests([u]) == Requests(u) by {
        assert [u][..0] == [];
      }
      assert TeamIds(teams) == {t.id} + TeamIds(rest) by {
        assert teams == [t] + rest;
      }
      if u.teamId == t.id {
        assert u.teamId !in TeamIds(rest);
      }
    }
  }

  /**
   * The teams' request sums and the rows of no team together make up the
   * total (team ids are distinct), so the teams never account for more than
   * the total.
   */
  lemma {:induction false} TeamsPartitionTotal(teams: seq<Team>, usage: seq<Row>)
    requires DistinctIds(teams)
    ensures TeamsTotal(teams, usage) + SumRequests(Unassigned(usage, teams)) == SumRequests(usage)
    ensures TeamsTotal(teams, usage) <= SumRequests(usage)
    decreases |usage|
  {
    if usage == [] {
      assert TeamsTotal(teams, []) == 0 by {
        EmptyUsage(teams);
      }
    } else {
      var init := usage[..|usage| - 1];
      var u := usage[|usage| - 1];
      TeamsPartitionTotal(teams, init);
      assert usage == init + [u];
      TeamsTotalStep(teams, init, u);
      SumRequestsAppend(Unassigned(init, teams), if u.teamId in TeamIds(teams) then [] else [u]);
      assert SumRequests([u]) == Requests(u) by {
        assert [u][..0] == [];
      }
    }
  }

  lemma {:induction false} EmptyUsage(teams: seq<Team>)
    ensures TeamsTotal(teams, []) == 0
    decreases |teams|
  {
    if teams != [] {
      EmptyUsage(teams[1..]);
    }
  }

  /** The ranked entries' requests plus the unassigned rows' requests are the total request count. */
  lemma TeamStatsWithinTotal(teams: seq<Team>, profiles: seq<Profile>, usage: seq<Row>)
    requires DistinctIds(teams)
    ensures StatsTotal(TeamStats(teams, profiles, usage)) + SumRequests(Unassigned(usage, teams)) == SumRequests(usage)
  {
    RankIsSortedPermutation(Unranked(teams, profiles, usage));
    UnrankedTotal(teams, profiles, usage);
    TeamsPartitionTotal(teams, usage);
  }

  // ---------------------------------------------------------------------
  // The overview
  // ---------------------------------------------------------------------

  /** `teamStats.slice(0, 10)`. */
  function Overview(stats: seq<TeamStat>): (shown: seq<TeamStat>)
    ensures |shown| == if |stats| < 10 then |stats| else 10
    ensures shown == stats[..|shown|]
  {
    if |stats| < 10 then stats else stats[..10]
  }

  /** On ranked entries the overview shows ten (or all) entries with the most requests. */
  lemma OverviewShowsTheTop(stats: seq<TeamStat>)
    requires Ranked(stats)
    ensures forall i, j :: 0 <= i < |Overview(stats)| <= j < |stats| ==> Overview(stats)[i].requests >= stats[j].requests
  {
  }
}
