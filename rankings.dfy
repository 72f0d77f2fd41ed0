/** The rankings table (components/RankingsModal.tsx): every airline is ranked
  * on five metrics by sorting, the five ranks add up to an overall score, the
  * airlines are ordered by that score, and the user can re-sort the table by
  * any column.
  *
  * Array.prototype.sort is stable; it is modelled by an insertion sort
  * (`SortBy`) that puts `x` before `y` when the comparator of `x` and `y` is
  * not positive, and whose stability is proved (`SortByStable`). */
module Rankings {
  import opened Common
  import opened Model

  /** AI airlines have no satisfaction or brand awareness of their own; the
    * table ranks them with these fixed baselines. */
  const AiSatisfaction: real := 75.0
  const AiBrandAwareness: real := 50.0

  /** A row of the table before ranking. */
  datatype Airline = Airline(
    id: string, isPlayer: bool, name: string, satisfaction: real,
    brandAwareness: real, cash: real, fleetSize: nat, routeCount: nat)

  /** The five ranked metrics. */
  datatype Metric = Satisfaction | BrandAwareness | Cash | FleetSize | RouteCount

  function MetricValue(a: Airline, m: Metric): real {
    match m
    case Satisfaction => a.satisfaction
    case BrandAwareness => a.brandAwareness
    case Cash => a.cash
    case FleetSize => a.fleetSize as real
    case RouteCount => a.routeCount as real
  }

  function PlayerAirline(p: Player): Airline {
    Airline(PlayerMember, true, p.companyName, p.satisfaction, p.brandAwareness, p.cash, |p.fleet|, |p.routes|)
  }

  function CompetitorAirline(c: Competitor): Airline {
    Airline(c.id, false, c.name, AiSatisfaction, AiBrandAwareness, c.cash, |c.fleet|, |c.routes|)
  }

  /** The player first, then the competitors in their order. */
  function AllAirlines(p: Player, comps: seq<Competitor>): (r: seq<Airline>)
    ensures |r| == |comps| + 1
    ensures r[0].isPlayer && r[0].id == PlayerMember && r[0].satisfaction == p.satisfaction
            && r[0].brandAwareness == p.brandAwareness && r[0].cash == p.cash
    ensures forall i :: 1 <= i < |r| ==>
              !r[i].isPlayer && r[i].id == comps[i - 1].id && r[i].cash == comps[i - 1].cash
              && r[i].satisfaction == 75.0 && r[i].brandAwareness == 50.0
              && r[i].fleetSize == |comps[i - 1].fleet| && r[i].routeCount == |comps[i - 1].routes|
  {
    [PlayerAirline(p)] + seq(|comps|, i requires 0 <= i < |comps| => CompetitorAirline(comps[i]))
  }

  // ---------------------------------------------------------------------
  // A stable sort

  /** `x` goes in front of the first element it may precede. */
  function Insert<T>(x: T, s: seq<T>, before: (T, T) -> bool): (r: seq<T>)
    ensures |r| == |s| + 1
  {
    if |s| == 0 || before(x, s[0]) then [x] + s else [s[0]] + Insert(x, s[1..], before)
  }

  /** Insertion sort from the back: each element is inserted in front of the
    * ones after it that it may precede, so ties keep their order. */
  function SortBy<T>(s: seq<T>, before: (T, T) -> bool): (r: seq<T>)
    ensures |r| == |s|
  {
    if |s| == 0 then [] else Insert(s[0], SortBy(s[1..], before), before)
  }

  predicate Sorted<T>(s: seq<T>, before: (T, T) -> bool) {
    forall i, j :: 0 <= i < j < |s| ==> before(s[i], s[j])
  }

  /** The comparator orders every pair and is transitive. */
  ghost predicate TotalPreorder<T(!new)>(before: (T, T) -> bool) {
    (forall x: T, y: T :: before(x, y) || before(y, x)) &&
    (forall x: T, y: T, z: T :: before(x, y) && before(y, z) ==> before(x, z))
  }

  lemma {:induction false} InsertPermutation<T>(x: T, s: seq<T>, before: (T, T) -> bool)
    ensures multiset(Insert(x, s, before)) == multiset(s) + multiset{x}
  {
    if |s| > 0 && !before(x, s[0]) {
      InsertPermutation(x, s[1..], before);
      assert s == [s[0]] + s[1..];
    }
  }

  /** The sort only reorders: the result is a permutation of its input. */
  lemma {:induction false} SortByPermutation<T>(s: seq<T>, before: (T, T) -> bool)
    ensures multiset(SortBy(s, before)) == multiset(s)
  {
    if |s| > 0 {
      SortByPermutation(s[1..], before);
      InsertPermutation(s[0], SortBy(s[1..], before), before);
      assert s == [s[0]] + s[1..];
    }
  }

  lemma {:induction false} InsertSorted<T(!new)>(x: T, s: seq<T>, before: (T, T) -> bool)
    requires TotalPreorder(before) && Sorted(s, before)
    ensures Sorted(Insert(x, s, before), before)
  {
    var r := Insert(x, s, before);
    if |s| == 0 {
    } else if before(x, s[0]) {
      forall i, j | 0 <= i < j < |r| ensures before(r[i], r[j]) {
        if i == 0 && j > 1 {
          assert before(s[0], s[j - 1]);
        }
      }
    } else {
      assert before(s[0], x);
      var rest := Insert(x, s[1..], before);
      assert Sorted(s[1..], before) by {
        forall i, j | 0 <= i < j < |s[1..]| ensures before(s[1..][i], s[1..][j]) {
          assert s[1..][i] == s[i + 1] && s[1..][j] == s[j + 1];
        }
      }
      InsertSorted(x, s[1..], before);
      InsertPermutation(x, s[1..], before);
      forall j | 0 <= j < |rest| ensures before(s[0], rest[j]) {
        assert rest[j] in multiset(rest);
        if rest[j] != x {
          assert rest[j] in s[1..];
          var k :| 0 <= k < |s[1..]| && s[1..][k] == rest[j];
          assert s[k + 1] == rest[j];
        }
      }
      assert r == [s[0]] + rest;
    }
  }

  /** With a comparator that orders every pair consistently, the result is sorted. */
  lemma {:induction false} SortBySorted<T(!new)>(s: seq<T>, before: (T, T) -> bool)
    requires TotalPreorder(before)
    ensures Sorted(SortBy(s, before), before)
  {
    if |s| > 0 {
      SortBySorted(s[1..], before);
      InsertSorted(s[0], SortBy(s[1..], before), before);
    }
  }

  /** Filtering a list with a given head. */
  lemma FilterCons<T>(y: T, t: seq<T>, keep: T -> bool)
    ensures Filter([y] + t, keep) == (if keep(y) then [y] else []) + Filter(t, keep)
  {
    assert ([y] + t)[0] == y && ([y] + t)[1..] == t;
  }

  /** Inserting `x` keeps the order of any group of mutually tied elements:
    * `x` lands behind every member of its group. */
  lemma {:induction false} InsertKeepsTies<T>(x: T, s: seq<T>, before: (T, T) -> bool, tied: T -> bool)
    requires forall a, b :: tied(a) && tied(b) ==> before(a, b)
    ensures Filter(Insert(x, s, before), tied) == (if tied(x) then [x] else []) + Filter(s, tied)
  {
    if |s| == 0 || before(x, s[0]) {
      assert Insert(x, s, before) == [x] + s;
      FilterCons(x, s, tied);
    } else {
      var rest := Insert(x, s[1..], before);
      assert Insert(x, s, before) == [s[0]] + rest;
      assert s == [s[0]] + s[1..];
      FilterCons(s[0], rest, tied);
      FilterCons(s[0], s[1..], tied);
      InsertKeepsTies(x, s[1..], before, tied);
      assert tied(x) ==> !tied(s[0]);
    }
  }

  /** The sort is stable: a group of mutually tied elements (equal values of
    * the sorted metric, say) comes out in the order it went in. */
  lemma {:induction false} SortByStable<T>(s: seq<T>, before: (T, T) -> bool, tied: T -> bool)
    requires forall a, b :: tied(a) && tied(b) ==> before(a, b)
    ensures Filter(SortBy(s, before), tied) == Filter(s, tied)
  {
    if |s| > 0 {
      SortByStable(s[1..], before, tied);
      InsertKeepsTies(s[0], SortBy(s[1..], before), before, tied);
    }
  }

  // ---------------------------------------------------------------------
  // Per-metric ranks (getRanks)

  /** The comparator of the per-metric ranking: larger values first when descending, smaller first otherwise. */
  function MetricOrder(m: Metric, descending: bool): (Airline, Airline) -> bool {
    if descending then (a: Airline, b: Airline) => MetricValue(b, m) - MetricValue(a, m) <= 0.0
    else (a: Airline, b: Airline) => MetricValue(a, m) - MetricValue(b, m) <= 0.0
  }

  lemma MetricOrderTotal(m: Metric, descending: bool)
    ensures TotalPreorder(MetricOrder(m, descending))
  {
  }

  /** Airlines with the same value of the metric keep their list order in
    * the ranking, so the AI airlines' fixed baselines rank them in the order
    * the competitors are listed. */
  lemma MetricTiesKeepOrder(airlines: seq<Airline>, m: Metric, descending: bool, v: real)
    ensures Filter(SortBy(airlines, MetricOrder(m, descending)), (a: Airline) => MetricValue(a, m) == v)
         == Filter(airlines, (a: Airline) => MetricValue(a, m) == v)
  {
    var tied := (a: Airline) => MetricValue(a, m) == v;
    assert forall a, b :: tied(a) && tied(b) ==> MetricOrder(m, descending)(a, b);
    SortByStable(airlines, MetricOrder(m, descending), tied);
  }

  /** The map the forEach fills: each id to its 1-based position in `sorted`;
    * a later airline with the same id overwrites an earlier one. */
  function RankMap(sorted: seq<Airline>): map<string, int> {
    if |sorted| == 0 then map[]
    else RankMap(sorted[..|sorted| - 1])[sorted[|sorted| - 1].id := |sorted|]
  }

  /** getRanks as a value. */
  function Ranks(airlines: seq<Airline>, m: Metric, descending: bool): map<string, int> {
    RankMap(SortBy(airlines, MetricOrder(m, descending)))
  }

  /** getRanks: sort a copy, then record each airline's position plus one. */
  method GetRanks(airlines: seq<Airline>, m: Metric, descending: bool) returns (ranks: map<string, int>)
    ensures ranks == Ranks(airlines, m, descending)
  {
    var sorted := SortBy(airlines, MetricOrder(m, descending));
    ranks := map[];
    var i := 0;
    while i < |sorted|
      invariant 0 <= i <= |sorted|
      invariant ranks == RankMap(sorted[..i])
    {
      assert sorted[..i + 1][..i] == sorted[..i];
      ranks := ranks[sorted[i].id := i + 1];
      i := i + 1;
    }
    assert sorted[..|sorted|] == sorted;
  }

  predicate DistinctIds(s: seq<Airline>) {
    forall i, j :: 0 <= i < j < |s| ==> s[i].id != s[j].id
  }

  function Ids(s: seq<Airline>): set<string> {
    set a | a in s :: a.id
  }

  /** The ids ranked are exactly the ids of the list. */
  lemma {:induction false} RankMapKeys(sorted: seq<Airline>)
    ensures RankMap(sorted).Keys == Ids(sorted)
  {
    if |sorted| > 0 {
      var n := |sorted| - 1;
      var front := sorted[..n];
      RankMapKeys(front);
      assert sorted == front + [sorted[n]];
      assert Ids(sorted) == Ids(front) + {sorted[n].id};
    }
  }

  /** With distinct ids, every airline's rank is its position plus one. */
  lemma {:induction false} RankMapPositions(sorted: seq<Airline>)
    requires DistinctIds(sorted)
    ensures forall i :: 0 <= i < |sorted| ==> sorted[i].id in RankMap(sorted) && RankMap(sorted)[sorted[i].id] == i + 1
  {
    if |sorted| > 0 {
      var n := |sorted| - 1;
      var front := sorted[..n];
      assert DistinctIds(front) by {
        forall i, j | 0 <= i < j < |front| ensures front[i].id != front[j].id {
          assert front[i] == sorted[i] && front[j] == sorted[j];
        }
      }
      RankMapPositions(front);
      forall i | 0 <= i < n ensures sorted[i].id in RankMap(sorted) && RankMap(sorted)[sorted[i].id] == i + 1 {
        assert sorted[i] == front[i];
        assert sorted[i].id != sorted[n].id;
      }
    }
  }

  lemma {:induction false} InsertDistinct(x: Airline, s: seq<Airline>, before: (Airline, Airline) -> bool)
    requires DistinctIds(s) && x.id !in Ids(s)
    ensures DistinctIds(Insert(x, s, before))
  {
    if |s| > 0 && !before(x, s[0]) {
      assert Ids(s[1..]) <= Ids(s);
      InsertDistinct(x, s[1..], before);
      InsertPermutation(x, s[1..], before);
      var rest := Insert(x, s[1..], before);
      forall j | 0 <= j < |rest| ensures rest[j].id != s[0].id {
        assert rest[j] in multiset(rest);
        if rest[j] != x {
          var k :| 0 <= k < |s[1..]| && s[1..][k] == rest[j];
          assert s[k + 1] == rest[j];
        } else {
          assert s[0] in s;
        }
      }
    }
  }

  lemma {:induction false} SortDistinct(s: seq<Airline>, before: (Airline, Airline) -> bool)
    requires DistinctIds(s)
    ensures DistinctIds(SortBy(s, before))
    ensures Ids(SortBy(s, before)) == Ids(s)
  {
    SortByPermutation(s, before);
    var r := SortBy(s, before);
    forall a | true ensures a in r <==> a in s {
      assert a in r <==> a in multiset(r);
    }
    if |s| > 0 {
      SortDistinct(s[1..], before);
      SortByPermutation(s[1..], before);
      var rest := SortBy(s[1..], before);
      assert s[0].id !in Ids(rest);
      InsertDistinct(s[0], rest, before);
    }
  }

  /** On a list with distinct ids the rank map is a bijection onto 1..n. */
  lemma RankMapBijection(sorted: seq<Airline>)
    requires DistinctIds(sorted)
    ensures RankMap(sorted).Keys == Ids(sorted)
    ensures forall a :: a in sorted ==> 1 <= RankMap(sorted)[a.id] <= |sorted|
    ensures forall a, b :: a in sorted && b in sorted && a.id != b.id ==> RankMap(sorted)[a.id] != RankMap(sorted)[b.id]
    ensures forall k :: 1 <= k <= |sorted| ==> k in RankMap(sorted).Values
  {
    RankMapKeys(sorted);
    RankMapPositions(sorted);
    var r := RankMap(sorted);
    forall a, b | a in sorted && b in sorted && a.id != b.id ensures r[a.id] != r[b.id] {
      var i :| 0 <= i < |sorted| && sorted[i] == a;
      var j :| 0 <= j < |sorted| && sorted[j] == b;
    }
    forall k | 1 <= k <= |sorted| ensures k in r.Values {
      assert r[sorted[k - 1].id] == k;
    }
  }

  /** A sorted copy has the same members. */
  lemma SortMembers<T>(s: seq<T>, before: (T, T) -> bool)
    ensures forall x :: x in SortBy(s, before) <==> x in s
  {
    SortByPermutation(s, before);
    forall x ensures x in SortBy(s, before) <==> x in s {
      assert x in SortBy(s, before) <==> x in multiset(SortBy(s, before));
    }
  }

  /** With distinct ids, getRanks is a bijection between the airlines and
    * 1..n: every airline has a rank in 1..n, airlines with different ids
    * have different ranks, and every rank in 1..n is taken. */
  lemma RanksBijection(airlines: seq<Airline>, m: Metric, descending: bool)
    requires DistinctIds(airlines)
    ensures var r := Ranks(airlines, m, descending);
            r.Keys == Ids(airlines)
            && (forall a :: a in airlines ==> 1 <= r[a.id] <= |airlines|)
            && (forall a, b :: a in airlines && b in airlines && a.id != b.id ==> r[a.id] != r[b.id])
            && (forall k :: 1 <= k <= |airlines| ==> k in r.Values)
  {
    var order := MetricOrder(m, descending);
    SortDistinct(airlines, order);
    SortMembers(airlines, order);
    RankMapBijection(SortBy(airlines, order));
  }

  /** In a list sorted by `before` with distinct ids, an airline that may not
    * come after another has the smaller rank. */
  lemma RankFollowsOrder(sorted: seq<Airline>, before: (Airline, Airline) -> bool, a: Airline, b: Airline)
    requires DistinctIds(sorted) && Sorted(sorted, before)
    requires a in sorted && b in sorted && a != b && !before(b, a)
    ensures a.id in RankMap(sorted) && b.id in RankMap(sorted)
    ensures RankMap(sorted)[a.id] < RankMap(sorted)[b.id]
  {
    RankMapPositions(sorted);
    var i :| 0 <= i < |sorted| && sorted[i] == a;
    var j :| 0 <= j < |sorted| && sorted[j] == b;
    if j < i {
      assert before(sorted[j], sorted[i]);
    }
  }

  /** Descending ranks follow the metric: a strictly larger value never gets a
    * larger rank. */
  lemma LargerValueBetterRank(airlines: seq<Airline>, m: Metric, a: Airline, b: Airline)
    requires DistinctIds(airlines) && a in airlines && b in airlines
    requires MetricValue(a, m) > MetricValue(b, m)
    ensures a.id in Ranks(airlines, m, true) && b.id in Ranks(airlines, m, true)
    ensures Ranks(airlines, m, true)[a.id] < Ranks(airlines, m, true)[b.id]
  {
    var order := MetricOrder(m, true);
    SortDistinct(airlines, order);
    SortMembers(airlines, order);
    MetricOrderTotal(m, true);
    SortBySorted(airlines, order);
    assert !order(b, a);
    RankFollowsOrder(SortBy(airlines, order), order, a, b);
  }

  // ---------------------------------------------------------------------
  // Overall score and rank

  datatype MetricRanks = MetricRanks(
    satisfaction: map<string, int>, brandAwareness: map<string, int>, cash: map<string, int>,
    fleetSize: map<string, int>, routeCount: map<string, int>)

  /** An airline with its five ranks and their sum (lower is better). */
  datatype Scored = Scored(
    airline: Airline, satisfactionRank: int, brandAwarenessRank: int, cashRank: int,
    fleetSizeRank: int, routeCountRank: int, overallScore: int)

  datatype RankedAirline = RankedAirline(scored: Scored, overallRank: int)

  /** An airline's rank, 0 when the map has none. */
  function RankOf(ranks: map<string, int>, id: string): int {
    if id in ranks then ranks[id] else 0
  }

  function WithScore(a: Airline, r: MetricRanks): Scored {
    var s, b, c := RankOf(r.satisfaction, a.id), RankOf(r.brandAwareness, a.id), RankOf(r.cash, a.id);
    var f, n := RankOf(r.fleetSize, a.id), RankOf(r.routeCount, a.id);
    Scored(a, s, b, c, f, n, s + b + c + f + n)
  }

  function AllRanks(all: seq<Airline>): MetricRanks {
    MetricRanks(Ranks(all, Satisfaction, true), Ranks(all, BrandAwareness, true), Ranks(all, Cash, true),
                Ranks(all, FleetSize, true), Ranks(all, RouteCount, true))
  }

  function WithScores(all: seq<Airline>): (r: seq<Scored>)
    ensures |r| == |all|
  {
    var ranks := AllRanks(all);
    seq(|all|, i requires 0 <= i < |all| => WithScore(all[i], ranks))
  }

  /** The comparator of the score sort: lower overall scores first. */
  function ScoreOrder(): (Scored, Scored) -> bool {
    (a: Scored, b: Scored) => a.overallScore - b.overallScore <= 0
  }

  function Numbered(sorted: seq<Scored>): (r: seq<RankedAirline>)
    ensures |r| == |sorted|
  {
    seq(|sorted|, i requires 0 <= i < |sorted| => RankedAirline(sorted[i], i + 1))
  }

  /** rankedAirlines: scored, sorted by score, numbered from 1. */
  function RankedAirlines(p: Player, comps: seq<Competitor>): seq<RankedAirline> {
    Numbered(SortBy(WithScores(AllAirlines(p, comps)), ScoreOrder()))
  }

  /** The same steps with the ranks filled in by the loop. */
  method RankAirlines(p: Player, comps: seq<Competitor>) returns (ranked: seq<RankedAirline>)
    ensures ranked == RankedAirlines(p, comps)
  {
    var all := AllAirlines(p, comps);
    var satisfaction := GetRanks(all, Satisfaction, true);
    var brandAwareness := GetRanks(all, BrandAwareness, true);
    var cash := GetRanks(all, Cash, true);
    var fleetSize := GetRanks(all, FleetSize, true);
    var routeCount := GetRanks(all, RouteCount, true);
    var ranks := MetricRanks(satisfaction, brandAwareness, cash, fleetSize, routeCount);
    var withScores := seq(|all|, i requires 0 <= i < |all| => WithScore(all[i], ranks));
    ranked := Numbered(SortBy(withScores, ScoreOrder()));
  }

  /** An airline's rank on one metric is in 1..n. */
  lemma RankInRange(all: seq<Airline>, m: Metric, a: Airline)
    requires DistinctIds(all) && a in all
    ensures 1 <= RankOf(Ranks(all, m, true), a.id) <= |all|
  {
    RanksBijection(all, m, true);
  }

  /** Each airline's overall score is five ranks in 1..n, so it lies in [5, 5n]. */
  lemma ScoreBounds(all: seq<Airline>, a: Airline)
    requires DistinctIds(all) && a in all
    ensures 5 <= WithScore(a, AllRanks(all)).overallScore <= 5 * |all|
  {
    RankInRange(all, Satisfaction, a);
    RankInRange(all, BrandAwareness, a);
    RankInRange(all, Cash, a);
    RankInRange(all, FleetSize, a);
    RankInRange(all, RouteCount, a);
  }

  /** The table is numbered 1..n in order of non-decreasing overall score. */
  lemma RankedAirlinesOrdered(p: Player, comps: seq<Competitor>)
    ensures var r := RankedAirlines(p, comps);
            |r| == |comps| + 1
            && (forall i :: 0 <= i < |r| ==> r[i].overallRank == i + 1)
            && (forall i, j :: 0 <= i < j < |r| ==> r[i].scored.overallScore <= r[j].scored.overallScore)
  {
    var scores := WithScores(AllAirlines(p, comps));
    var sorted := SortBy(scores, ScoreOrder());
    assert TotalPreorder(ScoreOrder());
    SortBySorted(scores, ScoreOrder());
    assert forall i, j :: 0 <= i < j < |sorted| ==> ScoreOrder()(sorted[i], sorted[j]);
  }

  /** With distinct ids every overall score in the table lies in [5, 5n]. */
  lemma RankedScoreBounds(p: Player, comps: seq<Competitor>)
    requires DistinctIds(AllAirlines(p, comps))
    ensures forall r :: r in RankedAirlines(p, comps) ==> 5 <= r.scored.overallScore <= 5 * (|comps| + 1)
  {
    var all := AllAirlines(p, comps);
    var scores := WithScores(all);
    var sorted := SortBy(scores, ScoreOrder());
    SortMembers(scores, ScoreOrder());
    var ranked := Numbered(sorted);
    forall x | x in ranked ensures 5 <= x.scored.overallScore <= 5 * (|comps| + 1) {
      var i :| 0 <= i < |ranked| && ranked[i] == x;
      assert sorted[i] in scores;
      var k :| 0 <= k < |scores| && scores[k] == sorted[i];
      ScoreBounds(all, all[k]);
    }
  }

  // ---------------------------------------------------------------------
  // The user's column sort

  datatype Column = OverallRank | Name | SatisfactionColumn | BrandAwarenessColumn | CashColumn
                  | FleetSizeColumn | RouteCountColumn

  datatype Direction = Ascending | Descending

  datatype SortConfig = SortConfig(key: Column, direction: Direction)

  /** The table opens sorted by overall rank, ascending. */
  const InitialSort := SortConfig(OverallRank, Ascending)

  /** The numeric columns. */
  function ColumnValue(r: RankedAirline, c: Column): real
    requires c != Name
  {
    match c
    case OverallRank => r.overallRank as real
    case SatisfactionColumn => r.scored.airline.satisfaction
    case BrandAwarenessColumn => r.scored.airline.brandAwareness
    case CashColumn => r.scored.airline.cash
    case FleetSizeColumn => r.scored.airline.fleetSize as real
    case RouteCountColumn => r.scored.airline.routeCount as real
  }

  /** The comparator of sortedAirlines. Names compare with the locale's
    * `compare`, a parameter here; numbers by difference. */
  function ColumnOrder(config: SortConfig, compare: (string, string) -> int): (RankedAirline, RankedAirline) -> bool {
    if config.key == Name then
      if config.direction == Ascending
      then (a: RankedAirline, b: RankedAirline) => compare(a.scored.airline.name, b.scored.airline.name) <= 0
      else (a: RankedAirline, b: RankedAirline) => compare(b.scored.airline.name, a.scored.airline.name) <= 0
    else
      if config.direction == Ascending
      then (a: RankedAirline, b: RankedAirline) => ColumnValue(a, config.key) - ColumnValue(b, config.key) <= 0.0
      else (a: RankedAirline, b: RankedAirline) => ColumnValue(b, config.key) - ColumnValue(a, config.key) <= 0.0
  }

  function SortedAirlines(ranked: seq<RankedAirline>, config: SortConfig,
                          compare: (string, string) -> int): seq<RankedAirline>
  {
    SortBy(ranked, ColumnOrder(config, compare))
  }

  /** The displayed table holds exactly the ranked rows, each as often as
    * before, whatever the column and the locale; on a numeric column it is
    * ordered in the chosen direction. */
  lemma SortedAirlinesPermutation(ranked: seq<RankedAirline>, config: SortConfig, compare: (string, string) -> int)
    ensures multiset(SortedAirlines(ranked, config, compare)) == multiset(ranked)
    ensures var s := SortedAirlines(ranked, config, compare);
            config.key != Name ==>
              forall i, j :: 0 <= i < j < |s| ==>
                (if config.direction == Ascending then ColumnValue(s[i], config.key) <= ColumnValue(s[j], config.key)
                 else ColumnValue(s[i], config.key) >= ColumnValue(s[j], config.key))
  {
    var order := ColumnOrder(config, compare);
    SortByPermutation(ranked, order);
    if config.key != Name {
      assert TotalPreorder(order);
      SortBySorted(ranked, order);
      var s := SortBy(ranked, order);
      assert forall i, j :: 0 <= i < j < |s| ==> order(s[i], s[j]);
    }
  }

  /** requestSort: descending only when the same column is already ascending. */
  function RequestSort(config: SortConfig, key: Column): (r: SortConfig)
    ensures r.key == key
    ensures r.direction == Descending <==> config.key == key && config.direction == Ascending
  {
    if config.key == key && config.direction == Ascending then SortConfig(key, Descending)
    else SortConfig(key, Ascending)
  }

  /** Clicking the same column twice from ascending comes back to ascending. */
  lemma RequestSortToggles(config: SortConfig, key: Column)
    ensures RequestSort(RequestSort(config, key), key).direction
            == (if RequestSort(config, key).direction == Ascending then Descending else Ascending)
  {
  }
}
