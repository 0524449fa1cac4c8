/** Rankings by value, best first, ties by ICAO code: probe ambiguity and traffic tiers. */
module Ranking {
  import opened Counting
  import opened Sorting

  type Icao = string
  type Collation = (Icao, Icao) -> bool

  /** localeCompare on codes, as a total order. */
  ghost predicate TotalOrder(collate: Collation) {
    Ordering(collate) && forall a, b :: collate(a, b) && collate(b, a) ==> a == b
  }

  /** The comparison (x, y) => value(y) - value(x) || code(x).localeCompare(code(y)). */
  function BestFirst<T>(value: T -> real, code: T -> Icao, collate: Collation): (T, T) -> bool {
    (x, y) => value(x) > value(y) || (value(x) == value(y) && collate(code(x), code(y)))
  }

  ghost predicate DistinctCodes<T(!new)>(code: T -> Icao, rows: seq<T>) {
    forall i, j :: 0 <= i < j < |rows| ==> code(rows[i]) != code(rows[j])
  }

  lemma BestFirstOrders<T(!new)>(value: T -> real, code: T -> Icao, collate: Collation, rows: seq<T>)
    requires TotalOrder(collate)
    ensures Ordering(BestFirst(value, code, collate))
    ensures DistinctCodes(code, rows) ==> NoTies(BestFirst(value, code, collate), rows)
  { }

  // ------------------------------------------------------------------
  // Rank: how many come before
  // ------------------------------------------------------------------

  lemma {:induction false} CountInsert<T(!new)>(p: T -> bool, leq: (T, T) -> bool, x: T, s: seq<T>)
    ensures Count(p, Insert(leq, x, s)) == Count(p, s) + (if p(x) then 1 else 0)
  {
    if s != [] && !leq(x, s[0]) {
      CountInsert(p, leq, x, s[1..]);
    } else {
      assert ([x] + s)[1..] == s;
    }
  }

  lemma {:induction false} CountSort<T(!new)>(p: T -> bool, leq: (T, T) -> bool, s: seq<T>)
    ensures Count(p, Sort(leq, s)) == Count(p, s)
  {
    if s != [] {
      CountSort(p, leq, s[1..]);
      CountInsert(p, leq, s[0], Sort(leq, s[1..]));
    }
  }

  function Before<T>(leq: (T, T) -> bool, x: T): T -> bool { y => leq(y, x) && !leq(x, y) }

  /** How many rows a ranking puts before x. */
  ghost function Rank<T>(leq: (T, T) -> bool, s: seq<T>, x: T): nat { Count(Before(leq, x), s) }

  /** In a sorted list without ties or repeats, what comes before t[i] is what stands before it. */
  lemma RankInSorted<T(!new)>(leq: (T, T) -> bool, t: seq<T>, i: nat)
    requires i < |t| && Sorted(leq, t) && NoTies(leq, t) && NoRepeats(t)
    ensures Count(Before(leq, t[i]), t) == i
  {
    var p := Before(leq, t[i]);
    forall k | 0 <= k < i ensures p(t[k]) { assert leq(t[k], t[i]) && t[k] != t[i]; }
    forall k | i < k < |t| ensures !p(t[k]) { assert leq(t[i], t[k]); }
    CountPrefix(p, t, i);
  }

  lemma CountPrefix<T(!new)>(p: T -> bool, t: seq<T>, i: nat)
    requires i <= |t| && (forall k :: 0 <= k < i ==> p(t[k])) && (forall k :: i <= k < |t| ==> !p(t[k]))
    ensures Count(p, t) == i
  {
    CountAll(p, t[..i]);
    CountNone(p, t[i..]);
    CountConcat(p, t[..i], t[i..]);
    assert t[..i] + t[i..] == t;
  }

  /** The position in the sorted list is the rank in the unsorted one. */
  lemma PositionIsRank<T(!new)>(leq: (T, T) -> bool, s: seq<T>, i: nat)
    requires Ordering(leq) && i < |s| && NoTies(leq, s) && NoRepeats(s)
    ensures |Sort(leq, s)| == |s| && Rank(leq, s, Sort(leq, s)[i]) == i
  {
    SortHolds(leq, s);
    var t := Sort(leq, s);
    StaysRepeatFree(s, t);
    forall x ensures x in t <==> x in s { SameElements(s, t, x); }
    RankInSorted(leq, t, i);
    CountSort(Before(leq, t[i]), leq, s);
  }

  // ------------------------------------------------------------------
  // Ambiguity-invariant ranking
  // ------------------------------------------------------------------

  datatype Candidate = Candidate(icao: Icao, lower: real, upper: real)

  function CodeOf(): Candidate -> Icao { (c: Candidate) => c.icao }

  /** Every candidate scored the same way between its two bounds: 0 is the lower bound, 1 the upper. */
  function Blend(w: real): Candidate -> real { (c: Candidate) => (1.0 - w) * c.lower + w * c.upper }

  function Order(w: real, collate: Collation): (Candidate, Candidate) -> bool { BestFirst(Blend(w), CodeOf(), collate) }

  function Codes(rows: seq<Candidate>): (r: seq<Icao>)
    ensures |r| == |rows| && forall i :: 0 <= i < |r| ==> r[i] == rows[i].icao
  {
    if rows == [] then [] else [rows[0].icao] + Codes(rows[1..])
  }

  function RankedCodes(w: real, rows: seq<Candidate>, collate: Collation): seq<Icao> {
    Codes(Sort(Order(w, collate), rows))
  }

  /** ambiguityRankingInvariant: the code lists ordered by lower and by upper bound agree. */
  predicate AmbiguityInvariant(rows: seq<Candidate>, collate: Collation) {
    RankedCodes(0.0, rows, collate) == RankedCodes(1.0, rows, collate)
  }

  /** The greater score first, equal scores by code. */
  predicate Ahead(a: Candidate, x: real, b: Candidate, y: real, collate: Collation) {
    x > y || (x == y && collate(a.icao, b.icao))
  }

  /** Two candidates are ordered alike by their lower and by their upper bounds. */
  predicate OrderedAlike(a: Candidate, b: Candidate, collate: Collation) {
    Ahead(a, a.lower, b, b.lower, collate) == Ahead(a, a.upper, b, b.upper, collate)
  }

  lemma OrderMeans(w: real, a: Candidate, b: Candidate, collate: Collation)
    ensures Order(w, collate)(a, b) <==>
      Ahead(a, a.lower - w * a.lower + w * a.upper, b, b.lower - w * b.lower + w * b.upper, collate)
    ensures w == 0.0 ==> (Order(w, collate)(a, b) <==> Ahead(a, a.lower, b, b.lower, collate))
    ensures w == 1.0 ==> (Order(w, collate)(a, b) <==> Ahead(a, a.upper, b, b.upper, collate))
  { }

  ghost predicate NoPairSwaps(rows: seq<Candidate>, collate: Collation) {
    forall a, b :: a in rows && b in rows ==> OrderedAlike(a, b, collate)
  }

  lemma CodesDetermineLists(rows: seq<Candidate>, a: seq<Candidate>, b: seq<Candidate>)
    requires DistinctCodes(CodeOf(), rows) && multiset(a) == multiset(rows) == multiset(b) && Codes(a) == Codes(b)
    ensures a == b
  {
    assert |a| == |Codes(a)| == |b|;
    forall i | 0 <= i < |a| ensures a[i] == b[i] {
      SameElements(rows, a, a[i]);
      SameElements(rows, b, b[i]);
      assert Codes(a)[i] == Codes(b)[i];
      assert CodeOf()(a[i]) == CodeOf()(b[i]);
    }
  }

  /** Ordered alike at both ends, ordered alike in between. */
  lemma BlendKeepsOrder(a: Candidate, b: Candidate, w: real, collate: Collation)
    requires 0.0 <= w <= 1.0 && Order(0.0, collate)(a, b) && Order(1.0, collate)(a, b)
    ensures Order(w, collate)(a, b)
  {
    var low, high := a.lower - b.lower, a.upper - b.upper;
    assert Blend(0.0)(a) - Blend(0.0)(b) == low && Blend(1.0)(a) - Blend(1.0)(b) == high;
    assert Blend(w)(a) - Blend(w)(b) == (1.0 - w) * low + w * high;
    if !collate(a.icao, b.icao) {
      assert low > 0.0 && high > 0.0;
      if w > 0.0 { assert w * high > 0.0; }
      if w < 1.0 { assert (1.0 - w) * low > 0.0; }
    }
  }

  /**
   The check passes exactly when no two candidates change places between the
   bounds, and then every blend of the bounds ranks all candidates the same
   way, so every top-k list is settled.
   */
  lemma AmbiguityInvariantMeans(rows: seq<Candidate>, collate: Collation, w: real, k: nat)
    requires TotalOrder(collate) && DistinctCodes(CodeOf(), rows)
    requires 0.0 <= w <= 1.0 && k <= |rows|
    ensures AmbiguityInvariant(rows, collate) <==> NoPairSwaps(rows, collate)
    ensures AmbiguityInvariant(rows, collate) ==>
      RankedCodes(w, rows, collate) == RankedCodes(0.0, rows, collate) && |RankedCodes(w, rows, collate)| == |rows| &&
      RankedCodes(w, rows, collate)[..k] == RankedCodes(0.0, rows, collate)[..k]
  {
    OrderHolds(rows, 0.0, collate);
    OrderHolds(rows, w, collate);
    if NoPairSwaps(rows, collate) {
      SameRanking(rows, w, collate);
      SameRanking(rows, 1.0, collate);
    }
    if AmbiguityInvariant(rows, collate) {
      InvariantMeansNoSwaps(rows, collate);
    }
  }

  lemma OrderHolds(rows: seq<Candidate>, w: real, collate: Collation)
    requires TotalOrder(collate) && DistinctCodes(CodeOf(), rows)
    ensures var t := Sort(Order(w, collate), rows);
      && Ordering(Order(w, collate)) && NoTies(Order(w, collate), rows)
      && multiset(t) == multiset(rows) && |t| == |rows| && Sorted(Order(w, collate), t)
  {
    BestFirstOrders(Blend(w), CodeOf(), collate, rows);
    SortHolds(Order(w, collate), rows);
  }

  lemma SameRanking(rows: seq<Candidate>, w: real, collate: Collation)
    requires TotalOrder(collate) && DistinctCodes(CodeOf(), rows) && NoPairSwaps(rows, collate) && 0.0 <= w <= 1.0
    ensures Sort(Order(w, collate), rows) == Sort(Order(0.0, collate), rows)
  {
    OrderHolds(rows, 0.0, collate);
    OrderHolds(rows, w, collate);
    var t := Sort(Order(0.0, collate), rows);
    forall i, j | 0 <= i < j < |t| ensures Order(w, collate)(t[i], t[j]) {
      SameElements(rows, t, t[i]);
      SameElements(rows, t, t[j]);
      assert OrderedAlike(t[i], t[j], collate);
      OrderMeans(0.0, t[i], t[j], collate);
      OrderMeans(1.0, t[i], t[j], collate);
      BlendKeepsOrder(t[i], t[j], w, collate);
    }
    var u := Sort(Order(w, collate), rows);
    forall x ensures x in u <==> x in rows { SameElements(u, rows, x); }
    SortedIsUnique(Order(w, collate), u, t);
  }

  lemma InvariantMeansNoSwaps(rows: seq<Candidate>, collate: Collation)
    requires TotalOrder(collate) && DistinctCodes(CodeOf(), rows) && AmbiguityInvariant(rows, collate)
    ensures NoPairSwaps(rows, collate)
  {
    hide Order, Sort, TotalOrder, DistinctCodes, NoTies;
    OrderHolds(rows, 0.0, collate);
    OrderHolds(rows, 1.0, collate);
    var t := Sort(Order(0.0, collate), rows);
    CodesDetermineLists(rows, t, Sort(Order(1.0, collate), rows));
    forall a, b | a in rows && b in rows ensures OrderedAlike(a, b, collate) {
      SameElements(rows, t, a);
      SameElements(rows, t, b);
      OrderMeans(0.0, a, b, collate);
      OrderMeans(1.0, a, b, collate);
      var i :| 0 <= i < |t| && t[i] == a;
      var j :| 0 <= j < |t| && t[j] == b;
      if i < j { StrictPair(rows, t, i, j, collate); }
      if j < i { StrictPair(rows, t, j, i, collate); }
      if i == j { SelfAhead(a, collate); }
    }
  }

  lemma SelfAhead(a: Candidate, collate: Collation)
    ensures OrderedAlike(a, a, collate)
  { }

  /** In a list sorted both ways, an earlier element comes strictly first both ways. */
  lemma StrictPair(rows: seq<Candidate>, t: seq<Candidate>, i: nat, j: nat, collate: Collation)
    requires TotalOrder(collate) && DistinctCodes(CodeOf(), rows) && multiset(t) == multiset(rows) && i < j < |t|
    requires Sorted(Order(0.0, collate), t) && Sorted(Order(1.0, collate), t)
    requires NoTies(Order(0.0, collate), rows) && NoTies(Order(1.0, collate), rows)
    ensures Order(0.0, collate)(t[i], t[j]) && Order(1.0, collate)(t[i], t[j])
    ensures t[i] != t[j] ==> !Order(0.0, collate)(t[j], t[i]) && !Order(1.0, collate)(t[j], t[i])
  {
    SameElements(rows, t, t[i]);
    SameElements(rows, t, t[j]);
  }
}
