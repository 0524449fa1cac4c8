/** Traffic tiers by rank share, as both reference builders assign them. */
module Tiering {
  import opened Common
  import opened Counting
  import opened Ranking
  import opened Sorting

  datatype Tier = HUB | MID | REGIONAL

  function Level(t: Tier): nat { match t case HUB => 2 case MID => 1 case REGIONAL => 0 }

  predicate Higher(a: Tier, b: Tier) { (a == HUB && b != HUB) || (a == MID && b == REGIONAL) }

  lemma LevelsDescend(a: Tier, b: Tier)
    ensures Level(a) > Level(b) <==> Higher(a, b)
  { }

  datatype Airport = Airport(icao: Icao, traffic: nat, tier: Tier)

  /** Shares in percent. */
  datatype Shares = Shares(hub: nat, hubMid: nat)

  const MR_AIRSPACE: Shares := Shares(5, 30)
  const OPDI: Shares := Shares(10, 40)

  predicate SharesOk(s: Shares) { s in {MR_AIRSPACE, OPDI} }

  /** max(1, ceil(total * share)) */
  function RankCount(total: nat, percent: nat): nat { Max(1, (total * percent + 99) / 100) }

  function HubCount(n: nat, s: Shares): nat { RankCount(n, s.hub) }

  /** The cumulative cut; only the OPDI builder caps it at the list length, which from 12 airports on never acts. */
  function HubMidCount(n: nat, s: Shares): nat { Max(HubCount(n, s) + 1, RankCount(n, s.hubMid)) }

  function HubMidCapped(n: nat, s: Shares): nat { Min(n, HubMidCount(n, s)) }

  /** The smallest positive number of airports that reaches the percentage. */
  lemma RankCountIsCeil(total: nat, percent: nat, k: nat)
    ensures RankCount(total, percent) >= 1 && 100 * RankCount(total, percent) >= total * percent
    ensures k >= 1 && 100 * k >= total * percent ==> k >= RankCount(total, percent)
  { }

  /** The cuts of both builders in their own percentages; the second leaves at least one MID airport. */
  lemma CutsMean(n: nat)
    ensures HubCount(n, MR_AIRSPACE) == RankCount(n, 5) && HubCount(n, OPDI) == RankCount(n, 10)
    ensures HubMidCount(n, MR_AIRSPACE) >= RankCount(n, 30) && HubMidCount(n, OPDI) >= RankCount(n, 40)
    ensures forall s :: HubMidCount(n, s) in {HubCount(n, s) + 1, RankCount(n, s.hubMid)}
    ensures forall s :: HubMidCount(n, s) > HubCount(n, s)
  { }

  lemma CutsLeaveRoom(n: nat, s: Shares)
    requires n >= 12 && SharesOk(s)
    ensures 1 <= HubCount(n, s) < HubMidCount(n, s) < n && HubMidCapped(n, s) == HubMidCount(n, s)
  { }

  function TierAt(i: nat, n: nat, s: Shares): Tier {
    if i < HubCount(n, s) then HUB else if i < HubMidCount(n, s) then MID else REGIONAL
  }

  function TrafficOf(): Airport -> real { (a: Airport) => a.traffic as real }
  function CodeOf(): Airport -> Icao { (a: Airport) => a.icao }

  function ByTraffic(collate: Collation): (Airport, Airport) -> bool { BestFirst(TrafficOf(), CodeOf(), collate) }

  function TierFrom(rows: seq<Airport>, from: nat, n: nat, s: Shares): (r: seq<Airport>)
    ensures |r| == |rows| && forall i :: 0 <= i < |r| ==> r[i] == rows[i].(tier := TierAt(from + i, n, s))
    decreases |rows|
  {
    if rows == [] then [] else [rows[0].(tier := TierAt(from, n, s))] + TierFrom(rows[1..], from + 1, n, s)
  }

  /** The frozen airports: sorted by traffic, then cut. */
  function Frozen(rows: seq<Airport>, s: Shares, collate: Collation): seq<Airport> {
    TierFrom(Sort(ByTraffic(collate), rows), 0, |rows|, s)
  }

  /** How many airports each tier got, and the traffic of the last HUB. */
  datatype Cuts = Cuts(hub: nat, mid: nat, regional: nat, hubCut: nat)

  /** assign_tiers: writes the tiers into the sorted rows; fewer than twelve raise and write nothing. */
  method AssignTiers(rows: array<Airport>, s: Shares) returns (r: Option<Cuts>)
    requires SharesOk(s)
    modifies rows
    ensures r.Some? <==> rows.Length >= 12
    ensures r.None? ==> rows[..] == old(rows[..])
    ensures r.Some? ==> rows[..] == TierFrom(old(rows[..]), 0, rows.Length, s)
    ensures r.Some? ==>
      var c := r.value;
      && c.hub > 0 && c.mid > 0 && c.regional > 0 && c.hub + c.mid + c.regional == rows.Length
      && c.hub == HubCount(rows.Length, s) && c.hub + c.mid == HubMidCount(rows.Length, s)
      && c.hubCut == rows[c.hub - 1].traffic
  {
    var n := rows.Length;
    if n < 12 { return None; }
    CutsLeaveRoom(n, s);
    var hub, hubMid := HubCount(n, s), HubMidCapped(n, s);
    for i := 0 to n
      invariant forall k :: 0 <= k < i ==> rows[k] == old(rows[k]).(tier := TierAt(k, n, s))
      invariant forall k :: i <= k < n ==> rows[k] == old(rows[k])
    {
      rows[i] := rows[i].(tier := if i < hub then HUB else if i < hubMid then MID else REGIONAL);
    }
    assert rows[..] == TierFrom(old(rows[..]), 0, n, s);
    return Some(Cuts(hub, hubMid - hub, n - hubMid, rows[hub - 1].traffic));
  }

  ghost predicate Classifiable(rows: seq<Airport>, collate: Collation) {
    |rows| >= 12 && TotalOrder(collate) && DistinctCodes(CodeOf(), rows)
  }

  lemma SortedByTraffic(rows: seq<Airport>, collate: Collation)
    requires Classifiable(rows, collate)
    ensures var leq := ByTraffic(collate);
      && Ordering(leq) && NoTies(leq, rows) && NoRepeats(rows)
      && |Sort(leq, rows)| == |rows| && multiset(Sort(leq, rows)) == multiset(rows) && Sorted(leq, Sort(leq, rows))
  {
    BestFirstOrders(TrafficOf(), CodeOf(), collate, rows);
    SortHolds(ByTraffic(collate), rows);
    forall i, j | 0 <= i < j < |rows| ensures rows[i] != rows[j] { assert CodeOf()(rows[i]) != CodeOf()(rows[j]); }
  }

  /** The order in which the airports were read does not matter. */
  lemma InputOrderIrrelevant(rows: seq<Airport>, others: seq<Airport>, s: Shares, collate: Collation)
    requires Classifiable(rows, collate) && multiset(rows) == multiset(others)
    ensures Frozen(rows, s, collate) == Frozen(others, s, collate)
  {
    SortedByTraffic(rows, collate);
    assert |multiset(rows)| == |rows| && |multiset(others)| == |others|;
    SortOfPermutation(ByTraffic(collate), rows, others);
  }

  /** The frozen list is the rows themselves, tiers apart. */
  lemma FrozenHasTheRows(rows: seq<Airport>, s: Shares, collate: Collation) returns (t: seq<Airport>)
    requires Classifiable(rows, collate)
    ensures multiset(t) == multiset(rows) && |t| == |rows| == |Frozen(rows, s, collate)|
    ensures forall i :: 0 <= i < |t| ==>
      t[i].icao == Frozen(rows, s, collate)[i].icao && t[i].traffic == Frozen(rows, s, collate)[i].traffic
  {
    SortedByTraffic(rows, collate);
    t := Sort(ByTraffic(collate), rows);
  }

  /** Busier airports first, equal traffic by code. */
  lemma FrozenOrder(rows: seq<Airport>, s: Shares, collate: Collation, i: nat, j: nat)
    requires Classifiable(rows, collate) && i < j < |rows|
    ensures |Frozen(rows, s, collate)| == |rows|
    ensures var a, b := Frozen(rows, s, collate)[i], Frozen(rows, s, collate)[j];
      a.traffic > b.traffic || (a.traffic == b.traffic && collate(a.icao, b.icao))
  {
    SortedByTraffic(rows, collate);
    var t := Sort(ByTraffic(collate), rows);
    assert ByTraffic(collate)(t[i], t[j]);
  }

  lemma SortedTraffic(rows: seq<Airport>, s: Shares, collate: Collation, i: nat, j: nat)
    requires Classifiable(rows, collate) && i <= j < |rows|
    ensures |Frozen(rows, s, collate)| == |rows| &&
        Frozen(rows, s, collate)[i].traffic >= Frozen(rows, s, collate)[j].traffic
  {
    SortedByTraffic(rows, collate);
    var t := Sort(ByTraffic(collate), rows);
    if i < j { assert ByTraffic(collate)(t[i], t[j]); }
  }

  lemma EnoughAirports(rows: seq<Airport>, collate: Collation)
    requires Classifiable(rows, collate)
    ensures |rows| >= 12
  { }

  /** Three non-empty tiers in traffic order; the hub cut is the least HUB traffic. */
  lemma TiersAreOrdered(rows: seq<Airport>, s: Shares, collate: Collation, i: nat, j: nat)
    requires Classifiable(rows, collate) && SharesOk(s) && i < |rows| && j < |rows|
    ensures var f, cut := Frozen(rows, s, collate), HubCount(|rows|, s) - 1;
      && |f| == |rows| && 0 <= cut < |f| - 2
      && f[0].tier == HUB && f[cut].tier == HUB && f[cut + 1].tier == MID && f[|f| - 1].tier == REGIONAL
      && (Higher(f[i].tier, f[j].tier) ==> f[i].traffic >= f[j].traffic)
      && (f[i].tier == HUB ==> f[i].traffic >= f[cut].traffic)
  {
    hide Classifiable, Frozen;
    EnoughAirports(rows, collate);
    CutsLeaveRoom(|rows|, s);
    var cut := HubCount(|rows|, s) - 1;
    if i <= j { SortedTraffic(rows, s, collate, i, j); } else { LowerRankHigherTier(j, i, |rows|, s); }
    if i <= cut { SortedTraffic(rows, s, collate, i, cut); }
    FrozenTier(rows, s, collate, i);
    FrozenTier(rows, s, collate, j);
    FrozenTier(rows, s, collate, 0);
    FrozenTier(rows, s, collate, cut);
    FrozenTier(rows, s, collate, cut + 1);
    FrozenTier(rows, s, collate, |rows| - 1);
  }

  lemma FrozenTier(rows: seq<Airport>, s: Shares, collate: Collation, i: nat)
    requires Classifiable(rows, collate) && i < |rows|
    ensures |Frozen(rows, s, collate)| == |rows| && Frozen(rows, s, collate)[i].tier == TierAt(i, |rows|, s)
  {
    SortedByTraffic(rows, collate);
  }

  // ------------------------------------------------------------------
  // More traffic never lowers a tier
  // ------------------------------------------------------------------

  /** The tier an airport gets, by its rank among the rows. */
  ghost function TierOf(rows: seq<Airport>, k: nat, s: Shares, collate: Collation): Tier
    requires k < |rows|
  {
    TierAt(Rank(ByTraffic(collate), rows, rows[k]), |rows|, s)
  }

  /** Position in the frozen list and rank among the rows give the same tier. */
  lemma TierByRank(rows: seq<Airport>, s: Shares, collate: Collation, i: nat)
    requires Classifiable(rows, collate) && i < |rows|
    ensures |Frozen(rows, s, collate)| == |rows|
    ensures exists k :: 0 <= k < |rows| && Frozen(rows, s, collate)[i] == rows[k].(tier := TierOf(rows, k, s, collate))
  {
    SortedByTraffic(rows, collate);
    PositionIsRank(ByTraffic(collate), rows, i);
    var t := Sort(ByTraffic(collate), rows);
    SameElements(rows, t, t[i]);
    var k :| 0 <= k < |rows| && rows[k] == t[i];
  }

  lemma {:induction false} CountFewer(p: Airport -> bool, q: Airport -> bool, s: seq<Airport>, t: seq<Airport>)
    requires |s| == |t| && forall i :: 0 <= i < |s| ==> p(s[i]) ==> q(t[i])
    ensures Count(p, s) <= Count(q, t)
  {
    if s != [] {
      assert p(s[0]) ==> q(t[0]);
      CountFewer(p, q, s[1..], t[1..]);
    }
  }

  lemma LowerRankHigherTier(i: nat, j: nat, n: nat, s: Shares)
    requires i <= j
    ensures Level(TierAt(i, n, s)) >= Level(TierAt(j, n, s))
  { }

  /** Raising one airport's traffic, all others fixed, never lowers its tier. */
  lemma MoreTrafficNeverLowers(rows: seq<Airport>, k: nat, more: nat, s: Shares, collate: Collation)
    requires TotalOrder(collate) && DistinctCodes(CodeOf(), rows) && k < |rows| && more >= rows[k].traffic
    ensures var raised := rows[k := rows[k].(traffic := more)];
            Level(TierOf(raised, k, s, collate)) >= Level(TierOf(rows, k, s, collate))
  {
    var leq := ByTraffic(collate);
    var before, after := rows[k], rows[k].(traffic := more);
    var raised := rows[k := after];
    var p, q := Before(leq, after), Before(leq, before);
    forall i | 0 <= i < |rows| ensures p(raised[i]) ==> q(rows[i]) { }
    CountFewer(p, q, raised, rows);
    LowerRankHigherTier(Rank(leq, raised, after), Rank(leq, rows, before), |rows|, s);
  }
}
