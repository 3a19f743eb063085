/** The `/global` statistics route: totals over every shot, the five most
    used clubs, the five best performing clubs among those with at least
    five shots, and the five most recent rounds. */
module GlobalStatistics {
  import opened Wrappers
  import opened Schema
  import opened Collections
  import opened Tallies

  datatype ClubUsage = ClubUsage(club: string, count: nat)

  /** A club's record; its success rate is the pair (successful, total). */
  datatype ClubPerformance = ClubPerformance(club: string, total: nat, successful: nat)

  datatype RecentRound = RecentRound(id: string, date: int, course: string, playerCount: nat)

  datatype GlobalStats = GlobalStats(
    totalRounds: nat,
    totalShots: nat,
    totalSuccessfulShots: nat,
    totalFailedShots: nat,
    totalPenaltyShots: nat,
    mostUsedClubs: seq<ClubUsage>,
    bestPerformingClubs: seq<ClubPerformance>,
    recentRounds: seq<RecentRound>)

  /** How many entries each top list keeps (`slice(0, 5)`). */
  const TOP := 5
  /** The fewest shots a club needs to be ranked by performance. */
  const MIN_SHOTS := 5

  function UsageOf(g: seq<Shot>, club: string): ClubUsage {
    ClubUsage(club, |g|)
  }

  function UsageCount(u: ClubUsage): int { u.count }

  function PerformanceOf(g: seq<Shot>, club: string): ClubPerformance {
    ClubPerformance(club, |g|, Successes(g))
  }

  /** The success rate in tenths of a percent, rounded to the nearest tenth
      (the value `toFixed(1)` yields, read back by `parseFloat`); 0 without shots. */
  function SuccessTenths(p: ClubPerformance): int {
    if p.total > 0 then RoundDiv(1000 * p.successful, p.total) else 0
  }

  predicate Eligible(p: ClubPerformance) {
    p.total >= MIN_SHOTS
  }

  /** `Object.entries(clubUsage)` sorted by count, most used first, cut to five. */
  function MostUsedClubs(shots: seq<Shot>): seq<ClubUsage> {
    Take(SortDesc(TallyAll(shots, ClubOf, UsageOf), UsageCount), TOP)
  }

  /** The clubs with at least five shots, by success rate, best first, cut to five. */
  function BestPerformingClubs(shots: seq<Shot>): seq<ClubPerformance> {
    Take(SortDesc(Where(TallyAll(shots, ClubOf, PerformanceOf), Eligible, true), SuccessTenths), TOP)
  }

  function RecentRoundOf(r: Round): RecentRound {
    RecentRound(r.id, r.date, r.course, |r.players|)
  }

  /** The first five rounds of the list, which the route fetches newest first. */
  function RecentRounds(rounds: seq<Round>): seq<RecentRound> {
    var rs := Take(rounds, TOP);
    seq(|rs|, i requires 0 <= i < |rs| => RecentRoundOf(rs[i]))
  }

  /** The route's answer for the fetched rounds (newest first) and all shots. */
  function GlobalStatsOf(rounds: seq<Round>, shots: seq<Shot>): GlobalStats {
    GlobalStats(
      |rounds|,
      |shots|,
      Successes(shots),
      Failures(shots),
      Penalties(shots),
      MostUsedClubs(shots),
      BestPerformingClubs(shots),
      RecentRounds(rounds))
  }

  // ---------------------------------------------------------------------
  // Properties
  // ---------------------------------------------------------------------

  /** Only `'fail'` counts as failed: shots without a result are neither
      successful nor failed, so the two totals never exceed the shot count. */
  lemma GlobalTotals(rounds: seq<Round>, shots: seq<Shot>)
    ensures var st := GlobalStatsOf(rounds, shots);
      st.totalSuccessfulShots + st.totalFailedShots <= st.totalShots
  {
    SuccessFailBound(shots);
  }

  /** The answer's fields: the numbers of rounds and shots, the numbers of
      shots whose result is 'success', whose result is 'fail' and that are
      penalties, and the three lists that `MostUsedClubsSpec`,
      `BestPerformingClubsSpec` and `RecentRoundsSpec` describe. */
  lemma GlobalStatsSpec(rounds: seq<Round>, shots: seq<Shot>)
    ensures var st := GlobalStatsOf(rounds, shots);
      && st.totalRounds == |rounds|
      && st.totalShots == |shots|
      && st.totalSuccessfulShots == |set i | 0 <= i < |shots| && shots[i].result == Some(SUCCESS)|
      && st.totalFailedShots == |set i | 0 <= i < |shots| && shots[i].result == Some(FAIL)|
      && st.totalPenaltyShots == |set i | 0 <= i < |shots| && shots[i].isPenalty|
      && st.totalSuccessfulShots + st.totalFailedShots <= st.totalShots
      && st.mostUsedClubs == MostUsedClubs(shots)
      && st.bestPerformingClubs == BestPerformingClubs(shots)
      && st.recentRounds == RecentRounds(rounds)
  {
    SuccessesCounted(shots);
    FailuresCounted(shots);
    PenaltiesCounted(shots);
    SuccessFailBound(shots);
  }

  lemma SuccessesCounted(shots: seq<Shot>)
    ensures Successes(shots) == |set i | 0 <= i < |shots| && shots[i].result == Some(SUCCESS)|
  {
    WhereSize(shots, IsSuccess, true);
    assert Positions(shots, IsSuccess, true) == set i | 0 <= i < |shots| && shots[i].result == Some(SUCCESS);
  }

  lemma FailuresCounted(shots: seq<Shot>)
    ensures Failures(shots) == |set i | 0 <= i < |shots| && shots[i].result == Some(FAIL)|
  {
    WhereSize(shots, IsFail, true);
    assert Positions(shots, IsFail, true) == set i | 0 <= i < |shots| && shots[i].result == Some(FAIL);
  }

  lemma PenaltiesCounted(shots: seq<Shot>)
    ensures Penalties(shots) == |set i | 0 <= i < |shots| && shots[i].isPenalty|
  {
    WhereSize(shots, IsPenalty, true);
    assert Positions(shots, IsPenalty, true) == set i | 0 <= i < |shots| && shots[i].isPenalty;
  }

  /** A value of a tally list is the tally of one of the keys met. */
  lemma TallyAllMember<V>(shots: seq<Shot>, tally: (seq<Shot>, string) -> V, v: V)
    requires v in TallyAll(shots, ClubOf, tally)
    ensures exists c :: c in FirstOccurrence(shots, ClubOf) && v == tally(Where(shots, ClubOf, c), c)
  {
    var ks := FirstOccurrence(shots, ClubOf);
    var i :| 0 <= i < |ks| && TallyAll(shots, ClubOf, tally)[i] == v;
    assert ks[i] in ks;
  }

  /** At most five entries, most used first, each with the exact number of
      shots taken with its club, and each club listed at most once. */
  lemma MostUsedClubsSpec(shots: seq<Shot>)
    ensures var r := MostUsedClubs(shots);
      && |r| <= TOP
      && SortedDesc(r, UsageCount)
      && (forall u :: u in r ==> u.count == |Where(shots, ClubOf, u.club)| && u.count > 0)
      && (forall i, j :: 0 <= i < j < |r| ==> r[i].club != r[j].club)
  {
    var all := TallyAll(shots, ClubOf, UsageOf);
    var ks := FirstOccurrence(shots, ClubOf);
    assert forall a :: 0 <= a < |all| ==> all[a].club == ks[a];
    assert Distinct(all);
    SortDescDistinct(all, UsageCount);
    var s := SortDesc(all, UsageCount);
    var r := MostUsedClubs(shots);
    forall i, j | 0 <= i < j < |r|
      ensures r[i].club != r[j].club
    {
      assert r[i] == s[i] && r[j] == s[j];
      assert s[i] in multiset(all) && s[j] in multiset(all);
      var a :| 0 <= a < |all| && all[a] == s[i];
      var b :| 0 <= b < |all| && all[b] == s[j];
    }
    TopSorted(all, UsageCount, TOP);
    forall u | u in MostUsedClubs(shots)
      ensures u.count == |Where(shots, ClubOf, u.club)| && u.count > 0
    {
      TallyAllMember(shots, UsageOf, u);
    }
  }

  /** The list keeps the most used clubs: a club left out was used no more
      often than any club listed. */
  lemma MostUsedAreTop(shots: seq<Shot>, c: string, u: ClubUsage)
    requires c in FirstOccurrence(shots, ClubOf)
    requires u in MostUsedClubs(shots)
    requires forall v :: v in MostUsedClubs(shots) ==> v.club != c
    ensures |Where(shots, ClubOf, c)| <= u.count
  {
    var all := TallyAll(shots, ClubOf, UsageOf);
    var ks := FirstOccurrence(shots, ClubOf);
    var i :| 0 <= i < |ks| && ks[i] == c;
    assert all[i] == UsageOf(Where(shots, ClubOf, c), c);
    TopIsLargest(all, UsageCount, TOP, all[i], u);
  }

  /** At most five entries, each with at least five shots and its club's exact
      counts, best success rate first. */
  lemma BestPerformingClubsSpec(shots: seq<Shot>)
    ensures var r := BestPerformingClubs(shots);
      && |r| <= TOP
      && SortedDesc(r, SuccessTenths)
      && (forall p :: p in r ==>
            && p.total >= MIN_SHOTS
            && p.total == |Where(shots, ClubOf, p.club)|
            && p.successful == Successes(Where(shots, ClubOf, p.club)))
  {
    var all := TallyAll(shots, ClubOf, PerformanceOf);
    TopSorted(Where(all, Eligible, true), SuccessTenths, TOP);
    forall p | p in BestPerformingClubs(shots)
      ensures p.total >= MIN_SHOTS
      ensures p.total == |Where(shots, ClubOf, p.club)| && p.successful == Successes(Where(shots, ClubOf, p.club))
    {
      WhereSound(all, Eligible, true, p);
      TallyAllMember(shots, PerformanceOf, p);
    }
  }

  /** The list keeps the best clubs: a club with at least five shots that is
      left out has a success rate no higher than any club listed. */
  lemma BestPerformingAreTop(shots: seq<Shot>, c: string, p: ClubPerformance)
    requires c in FirstOccurrence(shots, ClubOf) && |Where(shots, ClubOf, c)| >= MIN_SHOTS
    requires p in BestPerformingClubs(shots)
    requires forall q :: q in BestPerformingClubs(shots) ==> q.club != c
    ensures SuccessTenths(PerformanceOf(Where(shots, ClubOf, c), c)) <= SuccessTenths(p)
  {
    var all := TallyAll(shots, ClubOf, PerformanceOf);
    var ks := FirstOccurrence(shots, ClubOf);
    var i :| 0 <= i < |ks| && ks[i] == c;
    var x := all[i];
    assert x == PerformanceOf(Where(shots, ClubOf, c), c);
    WhereComplete(all, Eligible, i);
    TopIsLargest(Where(all, Eligible, true), SuccessTenths, TOP, x, p);
  }

  /** At most five recent rounds, the first ones of the list, in its order. */
  lemma RecentRoundsSpec(rounds: seq<Round>)
    ensures var r := RecentRounds(rounds);
      && |r| == Min(TOP, |rounds|)
      && forall i :: 0 <= i < |r| ==>
           && r[i].id == rounds[i].id && r[i].date == rounds[i].date && r[i].course == rounds[i].course
           && r[i].playerCount == |rounds[i].players|
  {
  }
}
