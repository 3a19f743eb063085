/** The `/players/:id` statistics route: per club (distances, extremes,
    rounds played), overall totals and the performance in the player's ten
    most recent rounds. */
module PlayerStatistics {
  import opened Wrappers
  import opened Schema
  import opened Collections
  import opened Tallies

  /** What the pass accumulates per club. */
  datatype ClubAccum = ClubAccum(
    club: string,
    totalShots: nat,
    successfulShots: nat,
    failedShots: nat,
    totalDistance: int,
    distances: seq<int>,
    rounds: set<string>)

  /** A club's entry in the answer; its success rate is (successfulShots, totalShots). */
  datatype ClubSummary = ClubSummary(
    club: string,
    totalShots: nat,
    successfulShots: nat,
    failedShots: nat,
    averageDistance: int,
    maxDistance: int,
    minDistance: int,
    totalDistance: int,
    roundsPlayed: nat)

  datatype Overall = Overall(
    totalShots: nat,
    successfulShots: nat,
    failedShots: nat,
    penaltyShots: nat,
    averageDistance: int,
    totalDistance: int,
    roundsPlayed: nat)

  datatype RoundPerformance = RoundPerformance(
    roundId: string,
    date: int,
    course: string,
    totalShots: nat,
    successfulShots: nat,
    averageDistance: int)

  datatype PlayerStats = PlayerStats(
    player: Player,
    overall: Overall,
    clubStats: seq<ClubSummary>,
    recentPerformance: seq<RoundPerformance>)

  /** How many recent rounds the route looks at (`take: 10`). */
  const RECENT := 10

  // ---------------------------------------------------------------------
  // The rows the route reads
  // ---------------------------------------------------------------------

  /** The player's completed shots with a distance: a result set and a positive distance. */
  predicate Counted(s: Shot, playerId: string) {
    s.playerId == playerId && s.result.Some? && s.distance > 0
  }

  /** The fetched shot rows, in the order the store lists them (newest first). */
  function PlayerShots(allShots: seq<Shot>, playerId: string): (r: seq<Shot>)
    ensures forall i :: 0 <= i < |r| ==> Counted(r[i], playerId)
    ensures forall i :: 0 <= i < |allShots| && Counted(allShots[i], playerId) ==> allShots[i] in r
  {
    var keep := (s: Shot) => Counted(s, playerId);
    forall i | 0 <= i < |allShots| && Counted(allShots[i], playerId)
      ensures allShots[i] in Where(allShots, keep, true)
    {
      WhereComplete(allShots, keep, i);
    }
    Where(allShots, keep, true)
  }

  function Distances(g: seq<Shot>): (ds: seq<int>)
    ensures |ds| == |g|
  {
    seq(|g|, i requires 0 <= i < |g| => g[i].distance)
  }

  /** The ids of the rounds the group's shots were played in. */
  function RoundSet(g: seq<Shot>): set<string> {
    set i | 0 <= i < |g| :: g[i].roundId
  }

  // ---------------------------------------------------------------------
  // The club pass
  // ---------------------------------------------------------------------

  function ClubAccumOf(g: seq<Shot>, club: string): ClubAccum {
    ClubAccum(club, |g|, Successes(g), NonSuccesses(g), TotalDistance(g), Distances(g), RoundSet(g))
  }

  lemma DistancesSnoc(g: seq<Shot>, s: Shot)
    ensures Distances(g + [s]) == Distances(g) + [s.distance]
  {
    assert forall i :: 0 <= i < |g| ==> (g + [s])[i] == g[i];
  }

  lemma RoundSetSnoc(g: seq<Shot>, s: Shot)
    ensures RoundSet(g + [s]) == RoundSet(g) + {s.roundId}
  {
    var h := g + [s];
    assert h[|g|].roundId in RoundSet(h);
    forall r | r in RoundSet(h)
      ensures r in RoundSet(g) + {s.roundId}
    {
      var i :| 0 <= i < |h| && h[i].roundId == r;
      if i < |g| {
        assert g[i].roundId == r;
      }
    }
    forall r | r in RoundSet(g)
      ensures r in RoundSet(h)
    {
      var i :| 0 <= i < |g| && g[i].roundId == r;
      assert h[i].roundId == r;
    }
  }

  /** Counting one shot into its club's entry: the counters, the distance
      list and the set of rounds. */
  method AddClubShot(c: ClubAccum, s: Shot, ghost g: seq<Shot>) returns (c': ClubAccum)
    requires c == ClubAccumOf(g, c.club)
    ensures c' == ClubAccumOf(g + [s], c.club)
  {
    c' := c.(totalShots := c.totalShots + 1, totalDistance := c.totalDistance + s.distance,
             distances := c.distances + [s.distance], rounds := c.rounds + {s.roundId});
    if IsSuccess(s) {
      c' := c'.(successfulShots := c'.successfulShots + 1);
    } else {
      c' := c'.(failedShots := c'.failedShots + 1);
    }
    CountsSnoc(g, s);
    DistancesSnoc(g, s);
    RoundSetSnoc(g, s);
  }

  /** The body of the forEach: create the club's entry on first sight, then count the shot. */
  method CountClubShot(d: Dict<string, ClubAccum>, s: Shot, ghost seen: seq<Shot>) returns (d': Dict<string, ClubAccum>)
    requires Tallied(d, seen, ClubOf, ClubAccumOf)
    ensures Tallied(d', seen + [s], ClubOf, ClubAccumOf)
  {
    var c := if s.club in d.entries then d.entries[s.club] else ClubAccum(s.club, 0, 0, 0, 0, [], {});
    ghost var g := Where(seen, ClubOf, s.club);
    if s.club !in d.entries {
      TalliedFresh(d, seen, ClubOf, ClubAccumOf, s.club);
      assert RoundSet(g) == {};
    }
    assert c == ClubAccumOf(g, s.club);
    c := AddClubShot(c, s, g);
    d' := d.Put(s.club, c);
    TalliedStep(d, seen, s, ClubOf, ClubAccumOf, c);
  }

  // ---------------------------------------------------------------------
  // Summaries
  // ---------------------------------------------------------------------

  /** `Math.max(...xs)` for a non-empty list, 0 for an empty one. */
  function MaxOf(xs: seq<int>): (m: int)
    ensures xs == [] ==> m == 0
    ensures xs != [] ==> m in xs && forall x :: x in xs ==> x <= m
  {
    if xs == [] then 0
    else if |xs| == 1 then xs[0]
    else
      var m := MaxOf(xs[..|xs| - 1]);
      assert xs == xs[..|xs| - 1] + [xs[|xs| - 1]];
      if xs[|xs| - 1] > m then xs[|xs| - 1] else m
  }

  /** `Math.min(...xs)` for a non-empty list, 0 for an empty one. */
  function MinOf(xs: seq<int>): (m: int)
    ensures xs == [] ==> m == 0
    ensures xs != [] ==> m in xs && forall x :: x in xs ==> m <= x
  {
    if xs == [] then 0
    else if |xs| == 1 then xs[0]
    else
      var m := MinOf(xs[..|xs| - 1]);
      assert xs == xs[..|xs| - 1] + [xs[|xs| - 1]];
      if xs[|xs| - 1] < m then xs[|xs| - 1] else m
  }

  function Summary(c: ClubAccum): ClubSummary {
    ClubSummary(c.club, c.totalShots, c.successfulShots, c.failedShots,
                Average(c.totalDistance, c.totalShots), MaxOf(c.distances), MinOf(c.distances),
                c.totalDistance, |c.rounds|)
  }

  function SummaryShots(c: ClubSummary): int { c.totalShots }

  function Summaries(cs: seq<ClubAccum>): seq<ClubSummary> {
    seq(|cs|, i requires 0 <= i < |cs| => Summary(cs[i]))
  }

  /** The club summaries of the rows, most used club first. */
  function ClubSummariesOf(rows: seq<Shot>): seq<ClubSummary> {
    SortDesc(Summaries(TallyAll(rows, ClubOf, ClubAccumOf)), SummaryShots)
  }

  function OverallOf(rows: seq<Shot>): Overall {
    Overall(|rows|, Successes(rows), Failures(rows), Penalties(rows),
            Average(TotalDistance(rows), |rows|), TotalDistance(rows), |RoundSet(rows)|)
  }

  /** A round's line in `recentPerformance`, from its shots by the player that have a result. */
  function PerformanceOf(r: Round, roundShots: seq<Shot>): RoundPerformance {
    RoundPerformance(r.id, r.date, r.course, |roundShots|, Successes(roundShots),
                     Average(TotalDistance(roundShots), |roundShots|))
  }

  /** The player's shots in round `roundId` that have a result (any distance). */
  predicate InRecentRound(s: Shot, roundId: string, playerId: string) {
    s.roundId == roundId && s.playerId == playerId && s.result.Some?
  }

  function RecentRoundShots(allShots: seq<Shot>, roundId: string, playerId: string): seq<Shot> {
    Where(allShots, (s: Shot) => InRecentRound(s, roundId, playerId), true)
  }

  function Participates(links: seq<RoundPlayer>, playerId: string): Round -> bool {
    (r: Round) => InRound(links, r.id, playerId)
  }

  /** The first ten rounds of the list (newest first) that the player takes part in. */
  function RecentRoundsOf(rounds: seq<Round>, links: seq<RoundPlayer>, playerId: string): seq<Round> {
    Take(Where(rounds, Participates(links, playerId), true), RECENT)
  }

  function RecentPerformanceOf(rounds: seq<Round>, links: seq<RoundPlayer>, allShots: seq<Shot>, playerId: string)
    : seq<RoundPerformance>
  {
    var rs := RecentRoundsOf(rounds, links, playerId);
    seq(|rs|, i requires 0 <= i < |rs| => PerformanceOf(rs[i], RecentRoundShots(allShots, rs[i].id, playerId)))
  }

  function PlayerStatsOf(player: Player, rounds: seq<Round>, links: seq<RoundPlayer>, allShots: seq<Shot>): PlayerStats {
    var rows := PlayerShots(allShots, player.id);
    PlayerStats(player, OverallOf(rows), ClubSummariesOf(rows), RecentPerformanceOf(rounds, links, allShots, player.id))
  }

  /** The route: 404 for an unknown player; otherwise the club pass over the
      player's counted shots, the summaries, the totals and the recent rounds.
      `rounds` are all rounds, newest first; `links` say who plays in which round. */
  method ComputePlayerStats(player: Option<Player>, rounds: seq<Round>, links: seq<RoundPlayer>, allShots: seq<Shot>)
    returns (r: Result<PlayerStats, ApiError>)
    ensures player.None? ==> r == Failure(ApiError(404, ["Player not found"]))
    ensures player.Some? ==> r == Success(PlayerStatsOf(player.value, rounds, links, allShots))
  {
    if player.None? {
      return Failure(ApiError(404, ["Player not found"]));
    }
    var rows := PlayerShots(allShots, player.value.id);
    var clubs: Dict<string, ClubAccum> := EmptyDict();
    var i := 0;
    while i < |rows|
      invariant 0 <= i <= |rows|
      invariant Tallied(clubs, rows[..i], ClubOf, ClubAccumOf)
    {
      PrefixSnoc(rows, i);
      clubs := CountClubShot(clubs, rows[i], rows[..i]);
      i := i + 1;
    }
    PrefixFull(rows);
    TalliedValues(clubs, rows, ClubOf, ClubAccumOf);
    var clubStats := SortDesc(Summaries(clubs.Values()), SummaryShots);
    r := Success(PlayerStats(player.value, OverallOf(rows), clubStats,
                             RecentPerformanceOf(rounds, links, allShots, player.value.id)));
  }

  // ---------------------------------------------------------------------
  // Properties
  // ---------------------------------------------------------------------

  /** Per club listed: the extremes bound every distance recorded for the
      club's shots (and are among them), `roundsPlayed` counts the distinct
      rounds of those shots, and every shot is either successful or failed. */
  lemma ClubSummarySpec(rows: seq<Shot>, cs: ClubSummary)
    requires cs in ClubSummariesOf(rows)
    ensures SummaryFacts(Where(rows, ClubOf, cs.club), cs)
  {
    var ks := FirstOccurrence(rows, ClubOf);
    var all := Summaries(TallyAll(rows, ClubOf, ClubAccumOf));
    assert cs in multiset(ClubSummariesOf(rows));
    var i :| 0 <= i < |all| && all[i] == cs;
    var g := Where(rows, ClubOf, ks[i]);
    assert cs == Summary(ClubAccumOf(g, ks[i]));
    GroupSummary(g, ks[i]);
  }

  ghost predicate SummaryFacts(g: seq<Shot>, cs: ClubSummary) {
    && cs.totalShots == |g| > 0
    && (forall s :: s in g ==> cs.minDistance <= s.distance <= cs.maxDistance)
    && (exists s :: s in g && s.distance == cs.maxDistance)
    && (exists s :: s in g && s.distance == cs.minDistance)
    && cs.roundsPlayed == |set s | s in g :: s.roundId|
    && cs.totalShots == cs.successfulShots + cs.failedShots
  }

  lemma GroupSummary(g: seq<Shot>, c: string)
    requires g != []
    ensures SummaryFacts(g, Summary(ClubAccumOf(g, c)))
  {
    var cs := Summary(ClubAccumOf(g, c));
    var ds := Distances(g);
    forall s | s in g
      ensures cs.minDistance <= s.distance <= cs.maxDistance
    {
      var j :| 0 <= j < |g| && g[j] == s;
      assert ds[j] in ds;
    }
    var j :| 0 <= j < |ds| && ds[j] == cs.maxDistance;
    assert g[j] in g;
    var k :| 0 <= k < |ds| && ds[k] == cs.minDistance;
    assert g[k] in g;
    assert RoundSet(g) == set s | s in g :: s.roundId;
    SuccessSplit(g);
  }

  /** The summaries are sorted by number of shots, most used club first, and
      are exactly the summaries of the clubs met, one each. */
  lemma ClubSummariesSorted(rows: seq<Shot>)
    ensures var r := ClubSummariesOf(rows);
      && SortedDesc(r, SummaryShots)
      && multiset(r) == multiset(Summaries(TallyAll(rows, ClubOf, ClubAccumOf)))
      && |r| == |FirstOccurrence(rows, ClubOf)|
  {
    var r := ClubSummariesOf(rows);
    assert |r| == |multiset(r)|;
  }

  lemma {:induction false} RoundSetSize(g: seq<Shot>)
    ensures |RoundSet(g)| <= |g|
    ensures g != [] ==> |RoundSet(g)| >= 1
  {
    if g != [] {
      var n := |g| - 1;
      assert g == g[..n] + [g[n]];
      RoundSetSnoc(g[..n], g[n]);
      RoundSetSize(g[..n]);
    }
  }

  /** Overall: only `'fail'` counts as failed, the average is the rounded
      mean distance, and the number of rounds played is at least one and at
      most the number of shots whenever there are shots. */
  lemma OverallSpec(rows: seq<Shot>)
    ensures var o := OverallOf(rows);
      && o.successfulShots + o.failedShots <= o.totalShots
      && (o.totalShots > 0 ==>
            2 * o.totalDistance - o.totalShots < 2 * o.averageDistance * o.totalShots <= 2 * o.totalDistance + o.totalShots)
      && (o.totalShots == 0 ==> o.averageDistance == 0 && o.roundsPlayed == 0)
      && (o.totalShots > 0 ==> 1 <= o.roundsPlayed <= o.totalShots)
  {
    SuccessFailBound(rows);
    RoundSetSize(rows);
  }

  /** Every counted shot has a positive distance, so a player's total distance is positive when there are shots. */
  lemma {:induction false} CountedDistancePositive(rows: seq<Shot>, playerId: string)
    requires forall i :: 0 <= i < |rows| ==> Counted(rows[i], playerId)
    ensures TotalDistance(rows) >= |rows|
  {
    if rows != [] {
      var n := |rows| - 1;
      assert rows == rows[..n] + [rows[n]];
      CountedDistancePositive(rows[..n], playerId);
      CountsSnoc(rows[..n], rows[n]);
    }
  }

  /** The player's first ten rounds of the list (newest first), in order:
      one line per round the player takes part in, fewer than ten only when
      the player has fewer rounds, each line counting only that round's
      shots by the player. */
  lemma RecentPerformanceSpec(rounds: seq<Round>, links: seq<RoundPlayer>, allShots: seq<Shot>, playerId: string)
    ensures var r := RecentPerformanceOf(rounds, links, allShots, playerId);
      var w := Where(rounds, Participates(links, playerId), true);
      && |r| == Min(RECENT, |w|)
      && (forall i :: 0 <= i < |r| ==>
           && r[i].roundId == w[i].id && r[i].date == w[i].date && r[i].course == w[i].course
           && InRound(links, r[i].roundId, playerId)
           && r[i].successfulShots <= r[i].totalShots
           && r[i].totalShots == |RecentRoundShots(allShots, r[i].roundId, playerId)|)
      && (|r| < RECENT ==>
           forall j :: 0 <= j < |rounds| && InRound(links, rounds[j].id, playerId) ==>
             exists i :: 0 <= i < |r| && r[i].roundId == rounds[j].id)
  {
    var rs := RecentRoundsOf(rounds, links, playerId);
    var r := RecentPerformanceOf(rounds, links, allShots, playerId);
    var w := Where(rounds, Participates(links, playerId), true);
    forall i | 0 <= i < |r|
      ensures InRound(links, r[i].roundId, playerId) && r[i].successfulShots <= r[i].totalShots
    {
      assert rs[i] == w[i];
      assert Participates(links, playerId)(w[i]);
      SuccessSplit(RecentRoundShots(allShots, rs[i].id, playerId));
    }
    if |r| < RECENT {
      forall j | 0 <= j < |rounds| && InRound(links, rounds[j].id, playerId)
        ensures exists i :: 0 <= i < |r| && r[i].roundId == rounds[j].id
      {
        assert Participates(links, playerId)(rounds[j]);
        WhereComplete(rounds, Participates(links, playerId), j);
        var i :| 0 <= i < |w| && w[i] == rounds[j];
        assert r[i].roundId == rs[i].id;
      }
    }
  }
}
