/** The per-round statistics routes: `/rounds/:id` (per player, club and
    location), `/rounds/:id/clubs` and `/rounds/:id/locations` (per club or
    location, split by player). Each route makes one pass over the round's
    shots that fills dictionaries; the passes are methods whose loop keeps
    each dictionary equal to the counts over the shots seen so far. */
module RoundStatistics {
  import opened Wrappers
  import opened Schema
  import opened Collections
  import opened Tallies

  datatype PlayerStat = PlayerStat(
    playerId: string,
    playerName: string,
    totalShots: nat,
    successfulShots: nat,
    failedShots: nat,
    penaltyShots: nat,
    totalDistance: int,
    shotsByHole: map<int, nat>,
    averageDistance: int)

  datatype ClubStat = ClubStat(club: string, totalShots: nat, successfulShots: nat, totalDistance: int, averageDistance: int)

  datatype LocationStat = LocationStat(location: string, totalShots: nat, successfulShots: nat)

  datatype RoundStats = RoundStats(
    round: Round,
    playerStats: seq<PlayerStat>,
    clubStats: seq<ClubStat>,
    locationStats: seq<LocationStat>,
    totalShots: nat,
    totalSuccessfulShots: nat,
    totalFailedShots: nat,
    totalPenaltyShots: nat)

  /** One player's share of a club's or a location's shots. */
  datatype PlayerSplit = PlayerSplit(playerId: string, playerName: string, totalShots: nat, successfulShots: nat)

  datatype ClubBreakdown = ClubBreakdown(
    club: string,
    totalShots: nat,
    successfulShots: nat,
    totalDistance: int,
    averageDistance: int,
    shotsByPlayer: seq<PlayerSplit>)

  datatype LocationBreakdown = LocationBreakdown(
    location: string,
    totalShots: nat,
    successfulShots: nat,
    shotsByPlayer: seq<PlayerSplit>)

  // ---------------------------------------------------------------------
  // What a pass has accumulated for the group `g` of one key
  // ---------------------------------------------------------------------

  function PlayerTally(g: seq<Shot>, id: string, name: string): PlayerStat {
    PlayerStat(id, name, |g|, Successes(g), NonSuccesses(g), Penalties(g), TotalDistance(g), HoleCounts(g), 0)
  }

  function ClubTally(g: seq<Shot>, club: string): ClubStat {
    ClubStat(club, |g|, Successes(g), TotalDistance(g), 0)
  }

  function LocationTally(g: seq<Shot>, location: string): LocationStat {
    LocationStat(location, |g|, Successes(g))
  }

  function SplitTally(g: seq<Shot>, id: string, name: string): PlayerSplit {
    PlayerSplit(id, name, |g|, Successes(g))
  }

  // The derived fields filled in after the pass.

  function PlayerWithAverage(p: PlayerStat): PlayerStat {
    p.(averageDistance := Average(p.totalDistance, p.totalShots))
  }

  function ClubWithAverage(c: ClubStat): ClubStat {
    c.(averageDistance := Average(c.totalDistance, c.totalShots))
  }

  // The tallies as functions of a group and its key, for `Tallied`.

  function PlayerTallies(nameOf: string -> string): (seq<Shot>, string) -> PlayerStat {
    (g, id) => PlayerTally(g, id, nameOf(id))
  }

  function SplitTallies(nameOf: string -> string): (seq<Shot>, string) -> PlayerSplit {
    (g, id) => SplitTally(g, id, nameOf(id))
  }

  /** The `shotsByPlayer` dictionaries after a pass over `seen`: per club (or
      location) met, the per-player tallies of that club's (location's) shots. */
  ghost predicate SplitsAfter(d: Dict<string, Dict<string, PlayerSplit>>, seen: seq<Shot>, key: Shot -> string, nameOf: string -> string) {
    && d.Valid()
    && d.keys == FirstOccurrence(seen, key)
    && forall k :: k in d.entries ==> Tallied(d.entries[k], Where(seen, key, k), PlayerOf, SplitTallies(nameOf))
  }

  // ---------------------------------------------------------------------
  // One shot's contribution to each dictionary (the body of the forEach)
  // ---------------------------------------------------------------------

  /** The player part of the pass: create the player's entry on first sight,
      then count the shot into it. */
  method CountPlayerShot(d: Dict<string, PlayerStat>, s: Shot, name: string, ghost seen: seq<Shot>, ghost nameOf: string -> string)
    returns (d': Dict<string, PlayerStat>)
    requires Tallied(d, seen, PlayerOf, PlayerTallies(nameOf)) && name == nameOf(s.playerId)
    ensures Tallied(d', seen + [s], PlayerOf, PlayerTallies(nameOf))
  {
    var id := s.playerId;
    var p := if id in d.entries then d.entries[id] else PlayerStat(id, name, 0, 0, 0, 0, 0, map[], 0);
    ghost var g := Where(seen, PlayerOf, id);
    if id !in d.entries {
      TalliedFresh(d, seen, PlayerOf, PlayerTallies(nameOf), id);
      assert FirstOccurrence(g, HoleOf) == [];
      assert HoleCounts(g) == map[];
    }
    assert p == PlayerTally(g, id, name);
    p := AddPlayerShot(p, s, g);
    d' := d.Put(id, p);
    assert p == PlayerTallies(nameOf)(g + [s], id);
    TalliedStep(d, seen, s, PlayerOf, PlayerTallies(nameOf), p);
  }

  /** Counting one more shot into a player's entry: the shot, its outcome,
      its penalty flag, its distance and its hole. */
  method AddPlayerShot(p: PlayerStat, s: Shot, ghost g: seq<Shot>) returns (p': PlayerStat)
    requires p == PlayerTally(g, p.playerId, p.playerName)
    ensures p' == PlayerTally(g + [s], p.playerId, p.playerName)
  {
    var holes := Bump(p.shotsByHole, s.holeNumber);
    var successes, failures, penalties := p.successfulShots, p.failedShots, p.penaltyShots;
    if IsSuccess(s) {
      successes := successes + 1;
    } else {
      failures := failures + 1;
    }
    if s.isPenalty {
      penalties := penalties + 1;
    }
    p' := PlayerStat(p.playerId, p.playerName, p.totalShots + 1, successes, failures, penalties,
      p.totalDistance + s.distance, holes, p.averageDistance);
    PlayerTallySnoc(p, s, g);
  }

  /** How a player's entry moves when one more shot joins the group. */
  lemma PlayerTallySnoc(p: PlayerStat, s: Shot, g: seq<Shot>)
    requires p == PlayerTally(g, p.playerId, p.playerName)
    ensures PlayerTally(g + [s], p.playerId, p.playerName) == PlayerStat(p.playerId, p.playerName, p.totalShots + 1,
        p.successfulShots + (if IsSuccess(s) then 1 else 0),
        p.failedShots + (if IsSuccess(s) then 0 else 1),
        p.penaltyShots + (if s.isPenalty then 1 else 0),
        p.totalDistance + s.distance,
        Bump(p.shotsByHole, s.holeNumber), p.averageDistance)
  {
    CountsSnoc(g, s);
    HoleCountsSnoc(g, s);
  }

  /** The club part of the pass. */
  method CountClubShot(d: Dict<string, ClubStat>, s: Shot, ghost seen: seq<Shot>) returns (d': Dict<string, ClubStat>)
    requires Tallied(d, seen, ClubOf, ClubTally)
    ensures Tallied(d', seen + [s], ClubOf, ClubTally)
  {
    var c := if s.club in d.entries then d.entries[s.club] else ClubStat(s.club, 0, 0, 0, 0);
    ghost var g := Where(seen, ClubOf, s.club);
    if s.club !in d.entries {
      TalliedFresh(d, seen, ClubOf, ClubTally, s.club);
    }
    c := AddClubShot(c, s, g);
    d' := d.Put(s.club, c);
    TalliedStep(d, seen, s, ClubOf, ClubTally, c);
  }

  /** Counting one more shot into a club's entry: the shot, its outcome and its distance. */
  method AddClubShot(c: ClubStat, s: Shot, ghost g: seq<Shot>) returns (c': ClubStat)
    requires c == ClubTally(g, c.club)
    ensures c' == ClubTally(g + [s], c.club)
  {
    var successes := c.successfulShots;
    if IsSuccess(s) {
      successes := successes + 1;
    }
    c' := ClubStat(c.club, c.totalShots + 1, successes, c.totalDistance + s.distance, c.averageDistance);
    CountsSnoc(g, s);
  }

  /** The location part of the pass. */
  method CountLocationShot(d: Dict<string, LocationStat>, s: Shot, ghost seen: seq<Shot>) returns (d': Dict<string, LocationStat>)
    requires Tallied(d, seen, LocationOf, LocationTally)
    ensures Tallied(d', seen + [s], LocationOf, LocationTally)
  {
    var l := if s.location in d.entries then d.entries[s.location] else LocationStat(s.location, 0, 0);
    ghost var g := Where(seen, LocationOf, s.location);
    if s.location !in d.entries {
      TalliedFresh(d, seen, LocationOf, LocationTally, s.location);
    }
    l := AddLocationShot(l, s, g);
    d' := d.Put(s.location, l);
    TalliedStep(d, seen, s, LocationOf, LocationTally, l);
  }

  /** Counting one more shot into a location's entry: the shot and its outcome. */
  method AddLocationShot(l: LocationStat, s: Shot, ghost g: seq<Shot>) returns (l': LocationStat)
    requires l == LocationTally(g, l.location)
    ensures l' == LocationTally(g + [s], l.location)
  {
    var successes := l.successfulShots;
    if IsSuccess(s) {
      successes := successes + 1;
    }
    l' := LocationStat(l.location, l.totalShots + 1, successes);
    CountsSnoc(g, s);
  }

  /** The `shotsByPlayer` part of the clubs and locations passes: the entry of
      the shot's club (or location) gets an entry for the shot's player. */
  method CountSplitShot(d: Dict<string, Dict<string, PlayerSplit>>, s: Shot, key: Shot -> string, name: string,
                        ghost seen: seq<Shot>, ghost nameOf: string -> string)
    returns (d': Dict<string, Dict<string, PlayerSplit>>)
    requires SplitsAfter(d, seen, key, nameOf) && name == nameOf(s.playerId)
    ensures SplitsAfter(d', seen + [s], key, nameOf)
  {
    var k := key(s);
    var inner := if k in d.entries then d.entries[k] else EmptyDict();
    ghost var g := Where(seen, key, k);
    if k !in d.entries {
      WhereAbsent(seen, key, k);
    }
    inner := CountSplitPlayer(inner, s, name, g, nameOf);
    d' := d.Put(k, inner);
    SplitsStep(d, seen, s, key, nameOf, inner);
  }

  /** The shot counted into its club's (location's) per-player dictionary. */
  method CountSplitPlayer(inner: Dict<string, PlayerSplit>, s: Shot, name: string, ghost g: seq<Shot>, ghost nameOf: string -> string)
    returns (inner': Dict<string, PlayerSplit>)
    requires Tallied(inner, g, PlayerOf, SplitTallies(nameOf)) && name == nameOf(s.playerId)
    ensures Tallied(inner', g + [s], PlayerOf, SplitTallies(nameOf))
  {
    var id := s.playerId;
    var p := if id in inner.entries then inner.entries[id] else PlayerSplit(id, name, 0, 0);
    ghost var h := Where(g, PlayerOf, id);
    if id !in inner.entries {
      TalliedFresh(inner, g, PlayerOf, SplitTallies(nameOf), id);
    }
    p := AddSplitShot(p, s, h);
    assert p == SplitTallies(nameOf)(h + [s], id);
    TalliedStep(inner, g, s, PlayerOf, SplitTallies(nameOf), p);
    inner' := inner.Put(id, p);
  }

  /** Storing the updated per-player dictionary of the shot's club (location)
      gives the dictionaries of `seen + [s]`; the other entries are untouched. */
  lemma SplitsStep(d: Dict<string, Dict<string, PlayerSplit>>, seen: seq<Shot>, s: Shot, key: Shot -> string,
                   nameOf: string -> string, inner: Dict<string, PlayerSplit>)
    requires SplitsAfter(d, seen, key, nameOf)
    requires Tallied(inner, Where(seen, key, key(s)) + [s], PlayerOf, SplitTallies(nameOf))
    ensures SplitsAfter(d.Put(key(s), inner), seen + [s], key, nameOf)
  {
    var k := key(s);
    var d' := d.Put(k, inner);
    WhereSnoc(seen, s, key, k);
    FirstOccurrenceSnoc(seen, s, key);
    forall other | other in d'.entries
      ensures Tallied(d'.entries[other], Where(seen + [s], key, other), PlayerOf, SplitTallies(nameOf))
    {
      if other != k {
        WhereSnoc(seen, s, key, other);
        assert Where(seen + [s], key, other) == Where(seen, key, other);
        assert d'.entries[other] == d.entries[other];
      }
    }
  }

  /** Counting one more shot into a player's share: the shot and its outcome. */
  method AddSplitShot(p: PlayerSplit, s: Shot, ghost h: seq<Shot>) returns (p': PlayerSplit)
    requires p == SplitTally(h, p.playerId, p.playerName)
    ensures p' == SplitTally(h + [s], p.playerId, p.playerName)
  {
    var successes := p.successfulShots;
    if IsSuccess(s) {
      successes := successes + 1;
    }
    p' := PlayerSplit(p.playerId, p.playerName, p.totalShots + 1, successes);
    CountsSnoc(h, s);
  }

  // ---------------------------------------------------------------------
  // GET /rounds/:id
  // ---------------------------------------------------------------------

  /** The three dictionaries the `/rounds/:id` pass fills. */
  datatype RoundPass = RoundPass(
    players: Dict<string, PlayerStat>,
    clubs: Dict<string, ClubStat>,
    locations: Dict<string, LocationStat>)

  ghost predicate RoundPassAfter(pass: RoundPass, seen: seq<Shot>, nameOf: string -> string) {
    && Tallied(pass.players, seen, PlayerOf, PlayerTallies(nameOf))
    && Tallied(pass.clubs, seen, ClubOf, ClubTally)
    && Tallied(pass.locations, seen, LocationOf, LocationTally)
  }

  /** The body of the `/rounds/:id` forEach: one shot counted into all three dictionaries. */
  method CountRoundShot(pass: RoundPass, s: Shot, name: string, ghost seen: seq<Shot>, ghost nameOf: string -> string)
    returns (pass': RoundPass)
    requires RoundPassAfter(pass, seen, nameOf) && name == nameOf(s.playerId)
    ensures RoundPassAfter(pass', seen + [s], nameOf)
  {
    var players := CountPlayerShot(pass.players, s, name, seen, nameOf);
    var clubs := CountClubShot(pass.clubs, s, seen);
    var locations := CountLocationShot(pass.locations, s, seen);
    pass' := RoundPass(players, clubs, locations);
  }

  function PlayersWithAverages(ps: seq<PlayerStat>): seq<PlayerStat> {
    seq(|ps|, i requires 0 <= i < |ps| => PlayerWithAverage(ps[i]))
  }

  function ClubsWithAverages(cs: seq<ClubStat>): seq<ClubStat> {
    seq(|cs|, i requires 0 <= i < |cs| => ClubWithAverage(cs[i]))
  }

  /** The answer for a round whose shots are `shots`: one entry per player,
      club and location in order of first appearance, each holding the counts
      over that player's, club's or location's shots. */
  function RoundStatsOf(round: Round, shots: seq<Shot>, nameOf: string -> string): RoundStats {
    RoundStats(
      round,
      PlayersWithAverages(TallyAll(shots, PlayerOf, PlayerTallies(nameOf))),
      ClubsWithAverages(TallyAll(shots, ClubOf, ClubTally)),
      TallyAll(shots, LocationOf, LocationTally),
      |shots|,
      Successes(shots),
      Failures(shots),
      Penalties(shots))
  }

  /** The route: 404 for an unknown round, otherwise one pass over the round's
      shots (`allShots` filtered by round id), then the averages over the
      dictionaries' values. `nameOf` is the joined player's name. */
  method ComputeRoundStats(round: Option<Round>, allShots: seq<Shot>, nameOf: string -> string)
    returns (r: Result<RoundStats, ApiError>)
    ensures round.None? ==> r == Failure(ApiError(404, ["Round not found"]))
    ensures round.Some? ==> r == Success(RoundStatsOf(round.value, Where(allShots, RoundOf, round.value.id), nameOf))
  {
    if round.None? {
      return Failure(ApiError(404, ["Round not found"]));
    }
    var shots := Where(allShots, RoundOf, round.value.id);
    var pass := RoundPass(EmptyDict(), EmptyDict(), EmptyDict());
    var i := 0;
    while i < |shots|
      invariant 0 <= i <= |shots|
      invariant RoundPassAfter(pass, shots[..i], nameOf)
    {
      var s := shots[i];
      PrefixSnoc(shots, i);
      pass := CountRoundShot(pass, s, nameOf(s.playerId), shots[..i], nameOf);
      i := i + 1;
    }
    PrefixFull(shots);
    TalliedValues(pass.players, shots, PlayerOf, PlayerTallies(nameOf));
    TalliedValues(pass.clubs, shots, ClubOf, ClubTally);
    TalliedValues(pass.locations, shots, LocationOf, LocationTally);
    r := Success(RoundStats(
      round.value,
      PlayersWithAverages(pass.players.Values()),
      ClubsWithAverages(pass.clubs.Values()),
      pass.locations.Values(),
      |shots|, Successes(shots), Failures(shots), Penalties(shots)));
  }

  // Properties of the answer.

  function PlayerTotal(p: PlayerStat): int { p.totalShots }

  function ClubTotal(c: ClubStat): int { c.totalShots }

  function LocationTotal(l: LocationStat): int { l.totalShots }

  /** The i-th entry of each list is the tally of the i-th key met. */
  lemma RoundStatsEntries(round: Round, shots: seq<Shot>, nameOf: string -> string)
    ensures var st := RoundStatsOf(round, shots, nameOf);
      var pk, ck, lk := FirstOccurrence(shots, PlayerOf), FirstOccurrence(shots, ClubOf), FirstOccurrence(shots, LocationOf);
      && |st.playerStats| == |pk| && |st.clubStats| == |ck| && |st.locationStats| == |lk|
      && (forall i :: 0 <= i < |pk| ==>
            st.playerStats[i] == PlayerWithAverage(PlayerTally(Where(shots, PlayerOf, pk[i]), pk[i], nameOf(pk[i]))))
      && (forall i :: 0 <= i < |ck| ==> st.clubStats[i] == ClubWithAverage(ClubTally(Where(shots, ClubOf, ck[i]), ck[i])))
      && (forall i :: 0 <= i < |lk| ==> st.locationStats[i] == LocationTally(Where(shots, LocationOf, lk[i]), lk[i]))
  {
  }

  /** Every shot is counted as either successful or failed for its player, a
      shot without a result among the failed; no club or location has more
      successes than shots. */
  lemma RoundPlayerOutcomes(round: Round, shots: seq<Shot>, nameOf: string -> string)
    ensures forall p :: p in RoundStatsOf(round, shots, nameOf).playerStats ==>
      p.totalShots == p.successfulShots + p.failedShots
    ensures forall c :: c in RoundStatsOf(round, shots, nameOf).clubStats ==> c.successfulShots <= c.totalShots
    ensures forall l :: l in RoundStatsOf(round, shots, nameOf).locationStats ==> l.successfulShots <= l.totalShots
  {
    var st := RoundStatsOf(round, shots, nameOf);
    var pk, ck, lk := FirstOccurrence(shots, PlayerOf), FirstOccurrence(shots, ClubOf), FirstOccurrence(shots, LocationOf);
    RoundStatsEntries(round, shots, nameOf);
    forall p | p in st.playerStats
      ensures p.totalShots == p.successfulShots + p.failedShots
    {
      var i :| 0 <= i < |st.playerStats| && st.playerStats[i] == p;
      SuccessSplit(Where(shots, PlayerOf, pk[i]));
    }
    forall c | c in st.clubStats
      ensures c.successfulShots <= c.totalShots
    {
      var i :| 0 <= i < |st.clubStats| && st.clubStats[i] == c;
      SuccessSplit(Where(shots, ClubOf, ck[i]));
    }
    forall l | l in st.locationStats
      ensures l.successfulShots <= l.totalShots
    {
      var i :| 0 <= i < |st.locationStats| && st.locationStats[i] == l;
      SuccessSplit(Where(shots, LocationOf, lk[i]));
    }
  }

  /** The player groups, the club groups and the location groups each hold
      every shot of the round exactly once: their totals add up to `totalShots`. */
  lemma RoundGroupsPartition(round: Round, shots: seq<Shot>, nameOf: string -> string)
    ensures var st := RoundStatsOf(round, shots, nameOf);
      && SumBy(st.playerStats, PlayerTotal) == st.totalShots
      && SumBy(st.clubStats, ClubTotal) == st.totalShots
      && SumBy(st.locationStats, LocationTotal) == st.totalShots
  {
    var st := RoundStatsOf(round, shots, nameOf);
    RoundStatsEntries(round, shots, nameOf);
    PartitionBy(shots, PlayerOf, st.playerStats, PlayerTotal);
    PartitionBy(shots, ClubOf, st.clubStats, ClubTotal);
    PartitionBy(shots, LocationOf, st.locationStats, LocationTotal);
  }

  /** When the i-th value has the size of the i-th group as its total, the
      totals add up to the number of shots. */
  lemma PartitionBy<V>(shots: seq<Shot>, key: Shot -> string, vs: seq<V>, total: V -> int)
    requires |vs| == |FirstOccurrence(shots, key)|
    requires forall i :: 0 <= i < |vs| ==> total(vs[i]) == |Where(shots, key, FirstOccurrence(shots, key)[i])|
    ensures SumBy(vs, total) == |shots|
  {
    SumByGroups(shots, key, FirstOccurrence(shots, key), vs, total);
    GroupSizesSum(shots, key);
  }

  /** A player's per-hole counts, summed over the holes the player played
      (each listed once), give the player's `totalShots`. */
  lemma RoundHoleCounts(round: Round, shots: seq<Shot>, nameOf: string -> string, i: nat)
    requires i < |RoundStatsOf(round, shots, nameOf).playerStats|
    ensures var p := RoundStatsOf(round, shots, nameOf).playerStats[i];
      var holes := FirstOccurrence(Where(shots, PlayerOf, p.playerId), HoleOf);
      && Distinct(holes)
      && (forall h :: h in p.shotsByHole <==> h in holes)
      && SumAt(p.shotsByHole, holes) == p.totalShots
  {
    var pk := FirstOccurrence(shots, PlayerOf);
    RoundStatsEntries(round, shots, nameOf);
    HoleCountsSum(Where(shots, PlayerOf, pk[i]));
  }

  /** Every listed player and club has at least one shot, and its average
      is the mean distance rounded to the nearest integer, halves up. */
  lemma RoundAverages(round: Round, shots: seq<Shot>, nameOf: string -> string)
    ensures forall p :: p in RoundStatsOf(round, shots, nameOf).playerStats ==>
      p.totalShots > 0
      && 2 * p.totalDistance - p.totalShots < 2 * p.averageDistance * p.totalShots <= 2 * p.totalDistance + p.totalShots
    ensures forall c :: c in RoundStatsOf(round, shots, nameOf).clubStats ==>
      c.totalShots > 0
      && 2 * c.totalDistance - c.totalShots < 2 * c.averageDistance * c.totalShots <= 2 * c.totalDistance + c.totalShots
  {
    RoundStatsEntries(round, shots, nameOf);
  }

  /** Shots without a result are neither successful nor failed in the round totals. */
  lemma RoundTotals(round: Round, shots: seq<Shot>, nameOf: string -> string)
    ensures var st := RoundStatsOf(round, shots, nameOf);
      st.totalSuccessfulShots + st.totalFailedShots <= st.totalShots
  {
    SuccessFailBound(shots);
  }

  // ---------------------------------------------------------------------
  // GET /rounds/:id/clubs and GET /rounds/:id/locations
  // ---------------------------------------------------------------------

  /** The dictionaries these passes fill: per group (club or location) its
      counters and its per-player shares. */
  datatype GroupPass<V> = GroupPass(groups: Dict<string, V>, splits: Dict<string, Dict<string, PlayerSplit>>)

  ghost predicate GroupPassAfter<V>(pass: GroupPass<V>, seen: seq<Shot>, key: Shot -> string, tally: (seq<Shot>, string) -> V,
                                    nameOf: string -> string) {
    && Tallied(pass.groups, seen, key, tally)
    && SplitsAfter(pass.splits, seen, key, nameOf)
  }

  /** The body of the `/rounds/:id/clubs` forEach. */
  method CountClubBreakdownShot(pass: GroupPass<ClubStat>, s: Shot, name: string, ghost seen: seq<Shot>, ghost nameOf: string -> string)
    returns (pass': GroupPass<ClubStat>)
    requires GroupPassAfter(pass, seen, ClubOf, ClubTally, nameOf) && name == nameOf(s.playerId)
    ensures GroupPassAfter(pass', seen + [s], ClubOf, ClubTally, nameOf)
  {
    var clubs := CountClubShot(pass.groups, s, seen);
    var splits := CountSplitShot(pass.splits, s, ClubOf, name, seen, nameOf);
    pass' := GroupPass(clubs, splits);
  }

  /** The body of the `/rounds/:id/locations` forEach. */
  method CountLocationBreakdownShot(pass: GroupPass<LocationStat>, s: Shot, name: string, ghost seen: seq<Shot>, ghost nameOf: string -> string)
    returns (pass': GroupPass<LocationStat>)
    requires GroupPassAfter(pass, seen, LocationOf, LocationTally, nameOf) && name == nameOf(s.playerId)
    ensures GroupPassAfter(pass', seen + [s], LocationOf, LocationTally, nameOf)
  {
    var locations := CountLocationShot(pass.groups, s, seen);
    var splits := CountSplitShot(pass.splits, s, LocationOf, name, seen, nameOf);
    pass' := GroupPass(locations, splits);
  }

  /** The shots of each player within the group `g`, in order of first appearance. */
  function SplitsOf(g: seq<Shot>, nameOf: string -> string): seq<PlayerSplit> {
    TallyAll(g, PlayerOf, SplitTallies(nameOf))
  }

  function ClubBreakdownOf(g: seq<Shot>, club: string, nameOf: string -> string): ClubBreakdown {
    ClubBreakdown(club, |g|, Successes(g), TotalDistance(g), Average(TotalDistance(g), |g|), SplitsOf(g, nameOf))
  }

  function LocationBreakdownOf(g: seq<Shot>, location: string, nameOf: string -> string): LocationBreakdown {
    LocationBreakdown(location, |g|, Successes(g), SplitsOf(g, nameOf))
  }

  function ClubBreakdownsOf(shots: seq<Shot>, nameOf: string -> string): seq<ClubBreakdown> {
    var ck := FirstOccurrence(shots, ClubOf);
    seq(|ck|, i requires 0 <= i < |ck| => ClubBreakdownOf(Where(shots, ClubOf, ck[i]), ck[i], nameOf))
  }

  function LocationBreakdownsOf(shots: seq<Shot>, nameOf: string -> string): seq<LocationBreakdown> {
    var lk := FirstOccurrence(shots, LocationOf);
    seq(|lk|, i requires 0 <= i < |lk| => LocationBreakdownOf(Where(shots, LocationOf, lk[i]), lk[i], nameOf))
  }

  /** `Object.values` of the clubs dictionary with the averages filled in and
      each club's player dictionary replaced by its values. */
  function ClubResults(pass: GroupPass<ClubStat>): seq<ClubBreakdown>
    requires pass.groups.Valid() && pass.splits.Valid()
    requires forall c :: c in pass.groups.entries ==> c in pass.splits.entries && pass.splits.entries[c].Valid()
  {
    var cs := pass.groups.keys;
    seq(|cs|, j requires 0 <= j < |cs| =>
      var c := pass.groups.entries[cs[j]];
      ClubBreakdown(c.club, c.totalShots, c.successfulShots, c.totalDistance,
                    Average(c.totalDistance, c.totalShots), pass.splits.entries[cs[j]].Values()))
  }

  function LocationResults(pass: GroupPass<LocationStat>): seq<LocationBreakdown>
    requires pass.groups.Valid() && pass.splits.Valid()
    requires forall l :: l in pass.groups.entries ==> l in pass.splits.entries && pass.splits.entries[l].Valid()
  {
    var ls := pass.groups.keys;
    seq(|ls|, j requires 0 <= j < |ls| =>
      var l := pass.groups.entries[ls[j]];
      LocationBreakdown(l.location, l.totalShots, l.successfulShots, pass.splits.entries[ls[j]].Values()))
  }

  /** After the clubs pass, reading the dictionaries gives the breakdown of every club met. */
  lemma ClubResultsMatch(pass: GroupPass<ClubStat>, shots: seq<Shot>, nameOf: string -> string)
    requires GroupPassAfter(pass, shots, ClubOf, ClubTally, nameOf)
    ensures ClubResults(pass) == ClubBreakdownsOf(shots, nameOf)
  {
    forall j | 0 <= j < |FirstOccurrence(shots, ClubOf)|
      ensures ClubResults(pass)[j] == ClubBreakdownsOf(shots, nameOf)[j]
    {
      ClubResultMatch(pass, shots, nameOf, j);
    }
  }

  lemma ClubResultMatch(pass: GroupPass<ClubStat>, shots: seq<Shot>, nameOf: string -> string, j: nat)
    requires GroupPassAfter(pass, shots, ClubOf, ClubTally, nameOf)
    requires j < |FirstOccurrence(shots, ClubOf)|
    ensures ClubResults(pass)[j] == ClubBreakdownsOf(shots, nameOf)[j]
  {
    var c := FirstOccurrence(shots, ClubOf)[j];
    TalliedValues(pass.splits.entries[c], Where(shots, ClubOf, c), PlayerOf, SplitTallies(nameOf));
  }

  /** After the locations pass, reading the dictionaries gives the breakdown of every location met. */
  lemma LocationResultsMatch(pass: GroupPass<LocationStat>, shots: seq<Shot>, nameOf: string -> string)
    requires GroupPassAfter(pass, shots, LocationOf, LocationTally, nameOf)
    ensures LocationResults(pass) == LocationBreakdownsOf(shots, nameOf)
  {
    forall j | 0 <= j < |FirstOccurrence(shots, LocationOf)|
      ensures LocationResults(pass)[j] == LocationBreakdownsOf(shots, nameOf)[j]
    {
      LocationResultMatch(pass, shots, nameOf, j);
    }
  }

  lemma LocationResultMatch(pass: GroupPass<LocationStat>, shots: seq<Shot>, nameOf: string -> string, j: nat)
    requires GroupPassAfter(pass, shots, LocationOf, LocationTally, nameOf)
    requires j < |FirstOccurrence(shots, LocationOf)|
    ensures LocationResults(pass)[j] == LocationBreakdownsOf(shots, nameOf)[j]
  {
    var l := FirstOccurrence(shots, LocationOf)[j];
    TalliedValues(pass.splits.entries[l], Where(shots, LocationOf, l), PlayerOf, SplitTallies(nameOf));
  }

  /** `/rounds/:id/clubs`: one pass filling the club counters and, per club,
      the per-player counters; then averages. An unknown round has no shots. */
  method ComputeClubBreakdowns(roundId: string, allShots: seq<Shot>, nameOf: string -> string)
    returns (r: seq<ClubBreakdown>)
    ensures r == ClubBreakdownsOf(Where(allShots, RoundOf, roundId), nameOf)
  {
    var shots := Where(allShots, RoundOf, roundId);
    var pass: GroupPass<ClubStat> := GroupPass(EmptyDict(), EmptyDict());
    var i := 0;
    while i < |shots|
      invariant 0 <= i <= |shots|
      invariant GroupPassAfter(pass, shots[..i], ClubOf, ClubTally, nameOf)
    {
      var s := shots[i];
      PrefixSnoc(shots, i);
      pass := CountClubBreakdownShot(pass, s, nameOf(s.playerId), shots[..i], nameOf);
      i := i + 1;
    }
    PrefixFull(shots);
    ClubResultsMatch(pass, shots, nameOf);
    r := ClubResults(pass);
  }

  /** `/rounds/:id/locations`: the same pass keyed by location, without distances. */
  method ComputeLocationBreakdowns(roundId: string, allShots: seq<Shot>, nameOf: string -> string)
    returns (r: seq<LocationBreakdown>)
    ensures r == LocationBreakdownsOf(Where(allShots, RoundOf, roundId), nameOf)
  {
    var shots := Where(allShots, RoundOf, roundId);
    var pass: GroupPass<LocationStat> := GroupPass(EmptyDict(), EmptyDict());
    var i := 0;
    while i < |shots|
      invariant 0 <= i <= |shots|
      invariant GroupPassAfter(pass, shots[..i], LocationOf, LocationTally, nameOf)
    {
      var s := shots[i];
      PrefixSnoc(shots, i);
      pass := CountLocationBreakdownShot(pass, s, nameOf(s.playerId), shots[..i], nameOf);
      i := i + 1;
    }
    PrefixFull(shots);
    LocationResultsMatch(pass, shots, nameOf);
    r := LocationResults(pass);
  }

  function SplitTotal(p: PlayerSplit): int { p.totalShots }

  /** Within a club, the players' shares add up to the club's `totalShots`. */
  lemma ClubSplitsPartition(g: seq<Shot>, club: string, nameOf: string -> string)
    ensures var b := ClubBreakdownOf(g, club, nameOf);
      SumBy(b.shotsByPlayer, SplitTotal) == b.totalShots
  {
    var pk := FirstOccurrence(g, PlayerOf);
    SumByGroups(g, PlayerOf, pk, SplitsOf(g, nameOf), SplitTotal);
    GroupSizesSum(g, PlayerOf);
  }

  /** Within a location, the players' shares add up to the location's `totalShots`. */
  lemma LocationSplitsPartition(g: seq<Shot>, location: string, nameOf: string -> string)
    ensures var b := LocationBreakdownOf(g, location, nameOf);
      SumBy(b.shotsByPlayer, SplitTotal) == b.totalShots
  {
    var pk := FirstOccurrence(g, PlayerOf);
    SumByGroups(g, PlayerOf, pk, SplitsOf(g, nameOf), SplitTotal);
    GroupSizesSum(g, PlayerOf);
  }
}
