/** The counters every statistics route keeps for a group of shots, each
    stated as a count over the group, and JavaScript's `Math.round` of a mean. */
module Tallies {
  import opened Schema
  import opened Collections

  /** Shots whose result is 'success'. */
  function Successes(g: seq<Shot>): nat {
    |Where(g, IsSuccess, true)|
  }

  /** Shots whose result is anything but 'success', a missing result among them. */
  function NonSuccesses(g: seq<Shot>): nat {
    |Where(g, IsSuccess, false)|
  }

  /** Shots whose result is 'fail'. */
  function Failures(g: seq<Shot>): nat {
    |Where(g, IsFail, true)|
  }

  function Penalties(g: seq<Shot>): nat {
    |Where(g, IsPenalty, true)|
  }

  /** The distances of the group added up, in the order the pass adds them. */
  function TotalDistance(g: seq<Shot>): int {
    if g == [] then 0 else TotalDistance(g[..|g| - 1]) + g[|g| - 1].distance
  }

  /** Every shot is either a success or counted among the others. */
  lemma SuccessSplit(g: seq<Shot>)
    ensures Successes(g) + NonSuccesses(g) == |g|
  {
    var ks := [true, false];
    forall i | 0 <= i < |g| ensures IsSuccess(g[i]) in ks {}
    PartitionSum(g, IsSuccess, ks);
    assert ks[1..] == [false];
    assert ks[1..][1..] == [];
    assert SumOfSizes(g, IsSuccess, ks[1..][1..]) == 0;
    assert SumOfSizes(g, IsSuccess, ks[1..]) == |Where(g, IsSuccess, false)|;
  }

  /** No shot is both a success and a failure; shots without a result are neither. */
  lemma {:induction false} SuccessFailBound(g: seq<Shot>)
    ensures Successes(g) + Failures(g) <= |g|
  {
    if g != [] {
      var n := |g| - 1;
      SuccessFailBound(g[..n]);
      WhereSnoc(g[..n], g[n], IsSuccess, true);
      WhereSnoc(g[..n], g[n], IsFail, true);
      assert g[..n] + [g[n]] == g;
    }
  }

  /** How the counters move when one more shot joins the group. */
  lemma CountsSnoc(g: seq<Shot>, s: Shot)
    ensures Successes(g + [s]) == Successes(g) + (if IsSuccess(s) then 1 else 0)
    ensures NonSuccesses(g + [s]) == NonSuccesses(g) + (if IsSuccess(s) then 0 else 1)
    ensures Failures(g + [s]) == Failures(g) + (if IsFail(s) then 1 else 0)
    ensures Penalties(g + [s]) == Penalties(g) + (if s.isPenalty then 1 else 0)
    ensures TotalDistance(g + [s]) == TotalDistance(g) + s.distance
  {
    WhereSnoc(g, s, IsSuccess, true);
    WhereSnoc(g, s, IsSuccess, false);
    WhereSnoc(g, s, IsFail, true);
    WhereSnoc(g, s, IsPenalty, true);
    assert (g + [s])[..|g|] == g;
  }

  // ---------------------------------------------------------------------
  // Shots per hole
  // ---------------------------------------------------------------------

  /** The per-hole counts the pass builds: each shot bumps its hole. */
  function HoleCounts(g: seq<Shot>): map<int, nat> {
    if g == [] then map[] else Bump(HoleCounts(g[..|g| - 1]), g[|g| - 1].holeNumber)
  }

  /** One more at `k`: a missing entry is first set to 0 (an entry is never 0 once made). */
  function Bump<K>(m: map<K, nat>, k: K): map<K, nat> {
    m[k := (if k in m then m[k] else 0) + 1]
  }

  lemma HoleCountsSnoc(g: seq<Shot>, s: Shot)
    ensures HoleCounts(g + [s]) == Bump(HoleCounts(g), s.holeNumber)
  {
    assert (g + [s])[..|g|] == g;
  }

  /** The counts hold, for each hole played in the group and no other, the
      number of the group's shots on it. */
  lemma {:induction false} HoleCountsMeaning(g: seq<Shot>)
    ensures forall h :: h in HoleCounts(g) <==> h in FirstOccurrence(g, HoleOf)
    ensures forall h :: h in HoleCounts(g) ==> HoleCounts(g)[h] == |Where(g, HoleOf, h)|
  {
    if g != [] {
      var n := |g| - 1;
      var init, s := g[..n], g[n];
      assert g == init + [s];
      HoleCountsMeaning(init);
      FirstOccurrenceSnoc(init, s, HoleOf);
      forall h | h in HoleCounts(g)
        ensures HoleCounts(g)[h] == |Where(g, HoleOf, h)|
      {
        WhereSnoc(init, s, HoleOf, h);
        if h !in FirstOccurrence(init, HoleOf) {
          WhereAbsent(init, HoleOf, h);
        }
      }
    }
  }

  /** The sum of `m` over the keys `ks` (a key missing from `m` adds nothing). */
  function SumAt<K>(m: map<K, nat>, ks: seq<K>): nat {
    if ks == [] then 0 else (if ks[0] in m then m[ks[0]] else 0) + SumAt(m, ks[1..])
  }

  /** The per-hole counts of a group sum to the size of the group. */
  lemma HoleCountsSum(g: seq<Shot>)
    ensures var ks := FirstOccurrence(g, HoleOf);
      && (forall h :: h in HoleCounts(g) <==> h in ks)
      && SumAt(HoleCounts(g), ks) == |g|
  {
    var ks := FirstOccurrence(g, HoleOf);
    var m := HoleCounts(g);
    HoleCountsMeaning(g);
    forall i | 0 <= i < |ks|
      ensures ks[i] in m
    {
      assert ks[i] in ks;
    }
    SumAtSizes(g, ks);
    GroupSizesSum(g, HoleOf);
  }

  lemma {:induction false} SumAtSizes(g: seq<Shot>, ks: seq<int>)
    requires forall h :: h in HoleCounts(g) ==> HoleCounts(g)[h] == |Where(g, HoleOf, h)|
    requires forall i :: 0 <= i < |ks| ==> ks[i] in HoleCounts(g)
    ensures SumAt(HoleCounts(g), ks) == SumOfSizes(g, HoleOf, ks)
  {
    if ks != [] {
      assert ks[0] in HoleCounts(g);
      SumAtSizes(g, ks[1..]);
    }
  }

  // ---------------------------------------------------------------------
  // Math.round(total / count)
  // ---------------------------------------------------------------------

  /** `Math.round(n / d)` for a positive `d`: the integer nearest to n/d, halves rounded up. */
  function RoundDiv(n: int, d: nat): (r: int)
    requires d > 0
    ensures 2 * n - d < 2 * r * d <= 2 * n + d
  {
    var q := (2 * n + d) / (2 * d);
    var m := (2 * n + d) % (2 * d);
    assert 2 * n + d == 2 * d * q + m && 0 <= m < 2 * d;
    assert 2 * q * d == 2 * d * q;
    q
  }

  /** `count > 0 ? Math.round(total / count) : 0`, the average the routes report. */
  function Average(total: int, count: nat): (r: int)
    ensures count == 0 ==> r == 0
    ensures count > 0 ==> 2 * total - count < 2 * r * count <= 2 * total + count
  {
    if count > 0 then RoundDiv(total, count) else 0
  }
}
