/** The route aggregation of the traffic references: months, exclusions, departures, coverage and degrees. */
module RoutePipeline {
  import opened Common
  import opened Counters

  type Icao = string
  type Operator = string
  type Route = (Icao, Icao)

  /** One row of the monthly GROUP BY. */
  datatype Group = Group(origin: Icao, destination: Icao, operator: Operator, n: nat)

  datatype Quality = Quality(grouped: int, invalidPair: int, coded: int, uncoded: int)

  datatype Tally = Tally(routes: map<Route, int>, operators: OperatorTable, quality: Quality)

  const NOTHING: Tally := Tally(map[], map[], Quality(0, 0, 0, 0))

  predicate UpperOrDigit(c: char) { 'A' <= c <= 'Z' || '0' <= c <= '9' }

  predicate Icao4(s: string) { |s| == 4 && forall i :: 0 <= i < 4 ==> UpperOrDigit(s[i]) }

  predicate Operator3(s: string) { |s| == 3 && forall i :: 0 <= i < 3 ==> 'A' <= s[i] <= 'Z' }

  predicate ValidPair(g: Group) { Icao4(g.origin) && Icao4(g.destination) && g.origin != g.destination }

  type OperatorTable = map<Route, map<Operator, int>>

  /** The default-dictionary lookup. */
  function Row(ops: OperatorTable, r: Route): map<Operator, int> { if r in ops then ops[r] else map[] }

  function BumpOperator(ops: OperatorTable, r: Route, o: Operator, n: int): OperatorTable {
    ops[r := Bump(Row(ops, r), o, n)]
  }

  /** One turn of the loop in read_month. */
  function Add(t: Tally, g: Group): Tally {
    var q := t.quality.(grouped := t.quality.grouped + g.n);
    if !ValidPair(g) then t.(quality := q.(invalidPair := q.invalidPair + g.n))
    else
      var r := (g.origin, g.destination);
      if Operator3(g.operator) then
        Tally(Bump(t.routes, r, g.n), BumpOperator(t.operators, r, g.operator, g.n), q.(coded := q.coded + g.n))
      else Tally(Bump(t.routes, r, g.n), t.operators, q.(uncoded := q.uncoded + g.n))
  }

  /** read_month over rows in the order they come. */
  function Read(rows: seq<Group>): Tally {
    if rows == [] then NOTHING else Add(Read(rows[..|rows| - 1]), rows[|rows| - 1])
  }

  method ReadMonth(rows: seq<Group>) returns (t: Tally)
    ensures t == Read(rows)
  {
    t := NOTHING;
    for i := 0 to |rows|
      invariant t == Read(rows[..i])
    {
      assert rows[..i + 1][..i] == rows[..i];
      t := Add(t, rows[i]);
    }
    assert rows[..|rows|] == rows;
  }

  // ------------------------------------------------------------------
  // Merging months
  // ------------------------------------------------------------------

  function MergeOperators(m: OperatorTable, n: OperatorTable): OperatorTable {
    map r | r in m.Keys + n.Keys :: Merge(Row(m, r), Row(n, r))
  }

  /** What the month loop of build does to its accumulators. */
  function MergeTally(t: Tally, u: Tally): Tally {
    Tally(Merge(t.routes, u.routes), MergeOperators(t.operators, u.operators),
          Quality(t.quality.grouped + u.quality.grouped, t.quality.invalidPair + u.quality.invalidPair,
                  t.quality.coded + u.quality.coded, t.quality.uncoded + u.quality.uncoded))
  }

  lemma MergeNothing(t: Tally)
    ensures MergeTally(t, NOTHING) == t
  {
    assert Merge(t.routes, map[]) == t.routes;
    forall r | r in t.operators ensures Merge(t.operators[r], map[]) == t.operators[r] { }
    assert MergeOperators(t.operators, map[]) == t.operators;
  }

  lemma RowOfMerge(m: OperatorTable, n: OperatorTable, r: Route)
    ensures Row(MergeOperators(m, n), r) == Merge(Row(m, r), Row(n, r))
  {
    if r !in m && r !in n { assert Merge(Row(m, r), Row(n, r)) == map[]; }
  }

  lemma RowOfBump(ops: OperatorTable, r: Route, o: Operator, x: int, k: Route)
    ensures Row(BumpOperator(ops, r, o, x), k) == if k == r then Bump(Row(ops, r), o, x) else Row(ops, k)
    ensures BumpOperator(ops, r, o, x).Keys == ops.Keys + {r}
  { }

  /** Two tables with the same routes and rows are one. */
  lemma SameRows(a: OperatorTable, b: OperatorTable)
    requires a.Keys == b.Keys && forall k :: k in a ==> Row(a, k) == Row(b, k)
    ensures a == b
  {
    forall k | k in a ensures k in b && a[k] == b[k] { assert Row(a, k) == Row(b, k); }
  }

  lemma MergeOperatorsBumpRow(m: OperatorTable, n: OperatorTable, r: Route, o: Operator, x: int, k: Route)
    ensures Row(MergeOperators(m, BumpOperator(n, r, o, x)), k) == Row(BumpOperator(MergeOperators(m, n), r, o, x), k)
  {
    RowOfMerge(m, BumpOperator(n, r, o, x), k);
    RowOfMerge(m, n, k);
    RowOfBump(n, r, o, x, k);
    RowOfBump(MergeOperators(m, n), r, o, x, k);
    MergeBump(Row(m, r), Row(n, r), o, x);
  }

  lemma MergeOperatorsBump(m: OperatorTable, n: OperatorTable, r: Route, o: Operator, x: int)
    ensures MergeOperators(m, BumpOperator(n, r, o, x)) == BumpOperator(MergeOperators(m, n), r, o, x)
  {
    var a, b := MergeOperators(m, BumpOperator(n, r, o, x)), BumpOperator(MergeOperators(m, n), r, o, x);
    RowOfBump(n, r, o, x, r);
    RowOfBump(MergeOperators(m, n), r, o, x, r);
    assert a.Keys == m.Keys + (n.Keys + {r}) == b.Keys;
    forall k | k in a ensures Row(a, k) == Row(b, k) { MergeOperatorsBumpRow(m, n, r, o, x, k); }
    SameRows(a, b);
  }

  /** The two tables one row of the GROUP BY touches. */
  lemma MergeAdd(t: Tally, u: Tally, g: Group)
    ensures MergeTally(t, Add(u, g)) == Add(MergeTally(t, u), g)
  {
    if ValidPair(g) {
      MergeBump(t.routes, u.routes, (g.origin, g.destination), g.n);
      if Operator3(g.operator) {
        MergeOperatorsBump(t.operators, u.operators, (g.origin, g.destination), g.operator, g.n);
      }
    }
  }

  /** Merging two months is reading them as one. */
  lemma {:induction false} MergeIsConcatenation(a: seq<Group>, b: seq<Group>)
    ensures MergeTally(Read(a), Read(b)) == Read(a + b)
    decreases |b|
  {
    if b == [] {
      MergeNothing(Read(a));
      assert a + b == a;
    } else {
      var front, last := b[..|b| - 1], b[|b| - 1];
      MergeIsConcatenation(a, front);
      MergeAdd(Read(a), Read(front), last);
      assert (a + b)[..|a + b| - 1] == a + front && (a + b)[|a + b| - 1] == last;
    }
  }

  function Flatten(months: seq<seq<Group>>): seq<Group> {
    if months == [] then [] else Flatten(months[..|months| - 1]) + months[|months| - 1]
  }

  /** The month loop of build: as if all months were one. */
  method ReadMonths(months: seq<seq<Group>>) returns (t: Tally)
    ensures t == Read(Flatten(months))
  {
    t := NOTHING;
    for i := 0 to |months|
      invariant t == Read(Flatten(months[..i]))
    {
      var month := ReadMonth(months[i]);
      MergeIsConcatenation(Flatten(months[..i]), months[i]);
      assert months[..i + 1][..i] == months[..i];
      t := MergeTally(t, month);
    }
    assert months[..|months|] == months;
  }

  // ------------------------------------------------------------------
  // Every flight counted once
  // ------------------------------------------------------------------

  function Flights(rows: seq<Group>): nat { if rows == [] then 0 else Flights(rows[..|rows| - 1]) + rows[|rows| - 1].n }

  /** What read_month guarantees about its counters. */
  ghost predicate TallyOk(t: Tally) {
    && t.quality.grouped == t.quality.invalidPair + Sum(t.routes)
    && Sum(t.routes) == t.quality.coded + t.quality.uncoded
    && (forall r :: r in t.routes ==> t.routes[r] >= 0)
    && (forall r :: r in t.operators ==> r in t.routes && CodedWithin(t, r))
  }

  /** A route's operator counts are non-negative and add up to no more than its flights. */
  ghost predicate CodedWithin(t: Tally, r: Route)
    requires r in t.operators && r in t.routes
  {
    Sum(t.operators[r]) <= t.routes[r] && forall o :: o in t.operators[r] ==> t.operators[r][o] >= 0
  }

  lemma AddKeeps(t: Tally, g: Group)
    requires TallyOk(t)
    ensures TallyOk(Add(t, g))
  {
    if ValidPair(g) {
      var r, u := (g.origin, g.destination), Add(t, g);
      SumBump(t.routes, r, g.n);
      if Operator3(g.operator) {
        SumBump(Row(t.operators, r), g.operator, g.n);
        if r !in t.operators { assert Row(t.operators, r) == map[]; }
      }
      forall x | x in u.operators ensures x in u.routes && CodedWithin(u, x) {
        if x in t.operators { assert CodedWithin(t, x); }
      }
    }
  }

  lemma {:induction false} ReadKeeps(rows: seq<Group>)
    ensures TallyOk(Read(rows)) && Read(rows).quality.grouped == Flights(rows)
  {
    if rows != [] {
      ReadKeeps(rows[..|rows| - 1]);
      AddKeeps(Read(rows[..|rows| - 1]), rows[|rows| - 1]);
    }
  }

  // ------------------------------------------------------------------
  // What the tally holds, as sums over the rows
  // ------------------------------------------------------------------

  /** All flights of the rows that a condition picks. */
  function FlightsWhere(rows: seq<Group>, p: Group -> bool): nat {
    if rows == [] then 0
    else FlightsWhere(rows[..|rows| - 1], p) + if p(rows[|rows| - 1]) then rows[|rows| - 1].n else 0
  }

  predicate Letter(c: char) { 65 <= c as int <= 90 }

  predicate LetterOrDigit(c: char) { Letter(c) || 48 <= c as int <= 57 }

  /** Two different codes of four upper-case letters or digits. */
  predicate ProperPair(o: Icao, d: Icao) {
    && |o| == 4 && |d| == 4 && o != d
    && forall i :: 0 <= i < 4 ==> LetterOrDigit(o[i]) && LetterOrDigit(d[i])
  }

  predicate ProperOperator(c: Operator) { |c| == 3 && Letter(c[0]) && Letter(c[1]) && Letter(c[2]) }

  predicate Somewhere(rows: seq<Group>, p: Group -> bool) { exists i :: 0 <= i < |rows| && p(rows[i]) }

  function Between(o: Icao, d: Icao): Group -> bool { (g: Group) => g.origin == o && g.destination == d }

  function FlownBy(o: Icao, d: Icao, c: Operator): Group -> bool {
    (g: Group) => g.origin == o && g.destination == d && g.operator == c
  }

  lemma PairShapes(g: Group)
    ensures ValidPair(g) <==> ProperPair(g.origin, g.destination)
  { }

  lemma OperatorShapes(c: Operator)
    ensures Operator3(c) <==> ProperOperator(c)
  { }

  lemma SomewhereGrows(rows: seq<Group>, p: Group -> bool)
    requires rows != []
    ensures Somewhere(rows, p) <==> Somewhere(rows[..|rows| - 1], p) || p(rows[|rows| - 1])
  {
    if Somewhere(rows, p) {
      var i :| 0 <= i < |rows| && p(rows[i]);
      if i < |rows| - 1 { assert rows[..|rows| - 1][i] == rows[i]; }
    }
  }

  /**
   The count of a route is the flights of the rows with exactly that origin and
   destination; the entries are the proper pairs that occur.
   */
  lemma {:induction false} RouteCounts(rows: seq<Group>, o: Icao, d: Icao)
    ensures (o, d) in Read(rows).routes <==> ProperPair(o, d) && Somewhere(rows, Between(o, d))
    ensures (o, d) in Read(rows).routes ==> Read(rows).routes[(o, d)] == FlightsWhere(rows, Between(o, d))
  {
    if rows != [] {
      var front, g := rows[..|rows| - 1], rows[|rows| - 1];
      RouteCounts(front, o, d);
      SomewhereGrows(rows, Between(o, d));
      PairShapes(g);
      if !Somewhere(front, Between(o, d)) { NowhereCounts(front, Between(o, d)); }
    }
  }

  lemma {:induction false} NowhereCounts(rows: seq<Group>, p: Group -> bool)
    requires !Somewhere(rows, p)
    ensures FlightsWhere(rows, p) == 0
  {
    if rows != [] {
      SomewhereGrows(rows, p);
      NowhereCounts(rows[..|rows| - 1], p);
    }
  }

  /** The same per operator, for codes of three upper-case letters. */
  lemma {:induction false} OperatorCounts(rows: seq<Group>, o: Icao, d: Icao, c: Operator)
    ensures c in Row(Read(rows).operators, (o, d)) <==>
      ProperPair(o, d) && ProperOperator(c) && Somewhere(rows, FlownBy(o, d, c))
    ensures c in Row(Read(rows).operators, (o, d)) ==>
      Row(Read(rows).operators, (o, d))[c] == FlightsWhere(rows, FlownBy(o, d, c))
  {
    if rows != [] {
      var front, g := rows[..|rows| - 1], rows[|rows| - 1];
      OperatorCounts(front, o, d, c);
      SomewhereGrows(rows, FlownBy(o, d, c));
      PairShapes(g);
      OperatorShapes(g.operator);
      if !Somewhere(front, FlownBy(o, d, c)) { NowhereCounts(front, FlownBy(o, d, c)); }
    }
  }

  /** The quality counters: improper pairs, and proper ones with and without an operator code. */
  lemma {:induction false} QualityCounts(rows: seq<Group>)
    ensures var q, proper := Read(rows).quality, (g: Group) => ProperPair(g.origin, g.destination);
      && q.invalidPair == FlightsWhere(rows, (g: Group) => !proper(g))
      && q.coded == FlightsWhere(rows, (g: Group) => proper(g) && ProperOperator(g.operator))
      && q.uncoded == FlightsWhere(rows, (g: Group) => proper(g) && !ProperOperator(g.operator))
      && q.grouped == FlightsWhere(rows, (g: Group) => true)
  {
    if rows != [] {
      QualityCounts(rows[..|rows| - 1]);
      PairShapes(rows[|rows| - 1]);
      OperatorShapes(rows[|rows| - 1].operator);
    }
  }

  datatype Meta = Meta(country: string, scheduled: bool)

  datatype Class = MissingMetadata | NonScheduled | Retained

  function ClassOf(r: Route, airports: map<Icao, Meta>): Class {
    if r.0 !in airports || r.1 !in airports then MissingMetadata
    else if !airports[r.0].scheduled || !airports[r.1].scheduled then NonScheduled
    else Retained
  }

  /** The routes of one class among those in `within`. */
  function Part(routes: map<Route, int>, airports: map<Icao, Meta>, c: Class, within: set<Route>): map<Route, int> {
    Restrict(routes, set r | r in within && ClassOf(r, airports) == c)
  }

  lemma PartGrows(routes: map<Route, int>, airports: map<Icao, Meta>, c: Class, within: set<Route>, r: Route)
    requires r in routes && r !in within
    ensures Part(routes, airports, c, within + {r}) ==
            (if ClassOf(r, airports) == c then Bump(Part(routes, airports, c, within), r, routes[r])
              else Part(routes, airports, c, within))
    ensures Sum(Part(routes, airports, c, within + {r})) ==
            Sum(Part(routes, airports, c, within)) + (if ClassOf(r, airports) == c then routes[r] else 0)
  {
    SumBump(Part(routes, airports, c, within), r, routes[r]);
  }

  ghost predicate Classified(routes: map<Route, int>, airports: map<Icao, Meta>, within: set<Route>,
                             missing: int, nonScheduled: int, retained: map<Route, int>) {
    && missing == Sum(Part(routes, airports, MissingMetadata, within))
    && nonScheduled == Sum(Part(routes, airports, NonScheduled, within))
    && retained == Part(routes, airports, Retained, within)
    && missing + nonScheduled + Sum(retained) == Sum(Restrict(routes, within))
  }

  lemma RestrictGrows(m: map<Route, int>, within: set<Route>, r: Route)
    requires r in m && r !in within
    ensures Restrict(m, within + {r}) == Bump(Restrict(m, within), r, m[r])
    ensures Sum(Restrict(m, within + {r})) == Sum(Restrict(m, within)) + m[r]
  {
    assert Restrict(m, within + {r}) == Bump(Restrict(m, within), r, m[r]);
    SumBump(Restrict(m, within), r, m[r]);
  }

  method ClassifyOne(r: Route, routes: map<Route, int>, airports: map<Icao, Meta>, ghost within: set<Route>,
                     missing: int, nonScheduled: int, retained: map<Route, int>)
    returns (missing': int, nonScheduled': int, retained': map<Route, int>)
    requires r in routes && r !in within && Classified(routes, airports, within, missing, nonScheduled, retained)
    ensures Classified(routes, airports, within + {r}, missing', nonScheduled', retained')
  {
    RestrictGrows(routes, within, r);
    PartGrows(routes, airports, MissingMetadata, within, r);
    PartGrows(routes, airports, NonScheduled, within, r);
    PartGrows(routes, airports, Retained, within, r);
    missing', nonScheduled', retained' := missing, nonScheduled, retained;
    match ClassOf(r, airports)
    case MissingMetadata => missing' := missing + routes[r];
    case NonScheduled => nonScheduled' := nonScheduled + routes[r];
    case Retained => retained' := Bump(retained, r, routes[r]);
  }

  lemma NothingClassified(routes: map<Route, int>, airports: map<Icao, Meta>)
    ensures Classified(routes, airports, {}, 0, 0, map[])
  {
    assert Restrict(routes, {}) == map[];
    forall c ensures Part(routes, airports, c, {}) == map[] { }
  }

  lemma RestrictAll(m: map<Route, int>)
    ensures Restrict(m, m.Keys) == m
  { }

  /** The exclusion loop of build. */
  method Classify(routes: map<Route, int>, airports: map<Icao, Meta>)
    returns (missing: int, nonScheduled: int, retained: map<Route, int>)
    ensures missing + nonScheduled + Sum(retained) == Sum(routes)
    ensures missing == Sum(map r | r in routes && !Known(r, airports) :: routes[r])
    ensures nonScheduled == Sum(map r | r in routes && Known(r, airports) && !BothScheduled(r, airports) :: routes[r])
    ensures retained == map r | r in routes && Known(r, airports) && BothScheduled(r, airports) :: routes[r]
  {
    missing, nonScheduled, retained := 0, 0, map[];
    var todo := routes.Keys;
    ghost var done: set<Route> := {};
    NothingClassified(routes, airports);
    while todo != {}
      invariant done !! todo && done + todo == routes.Keys
      invariant Classified(routes, airports, done, missing, nonScheduled, retained)
      decreases |todo|
    {
      var r :| r in todo;
      missing, nonScheduled, retained := ClassifyOne(r, routes, airports, done, missing, nonScheduled, retained);
      todo, done := todo - {r}, done + {r};
    }
    assert done == routes.Keys;
    RestrictAll(routes);
    ClassesMean(routes, airports);
  }

  /** Both ends of the route are in the metadata. */
  predicate Known(r: Route, airports: map<Icao, Meta>) { r.0 in airports && r.1 in airports }

  predicate BothScheduled(r: Route, airports: map<Icao, Meta>)
    requires Known(r, airports)
  {
    airports[r.0].scheduled && airports[r.1].scheduled
  }

  lemma ClassesMean(routes: map<Route, int>, airports: map<Icao, Meta>)
    ensures Part(routes, airports, MissingMetadata, routes.Keys) ==
            map r | r in routes && !Known(r, airports) :: routes[r]
    ensures Part(routes, airports, NonScheduled, routes.Keys) ==
            map r | r in routes && Known(r, airports) && !BothScheduled(r, airports) :: routes[r]
    ensures Part(routes, airports, Retained, routes.Keys) ==
            map r | r in routes && Known(r, airports) && BothScheduled(r, airports) :: routes[r]
  { }

  /** Every flight of every month is an invalid pair, lacks metadata, is non-scheduled, or is retained: once. */
  method CountFlights(months: seq<seq<Group>>, airports: map<Icao, Meta>)
    returns (t: Tally, missing: int, nonScheduled: int, retained: map<Route, int>)
    ensures t == Read(Flatten(months)) && TallyOk(t)
    ensures retained == map r | r in t.routes && Known(r, airports) && BothScheduled(r, airports) :: t.routes[r]
    ensures Flights(Flatten(months)) == t.quality.invalidPair + missing + nonScheduled + Sum(retained)
  {
    t := ReadMonths(months);
    ReadKeeps(Flatten(months));
    missing, nonScheduled, retained := Classify(t.routes, airports);
  }

  // ------------------------------------------------------------------
  // Departures and coverage
  // ------------------------------------------------------------------

  function From(m: map<Route, int>, o: Icao): map<Route, int> { map r | r in m && r.0 == o :: m[r] }

  /** All flights leaving an airport. */
  ghost function Outgoing(m: map<Route, int>, o: Icao): int { Sum(From(m, o)) }

  lemma OutgoingGrows(m: map<Route, int>, r: Route, n: int, o: Icao)
    requires r !in m
    ensures Outgoing(m[r := n], o) == Outgoing(m, o) + (if r.0 == o then n else 0)
  {
    if r.0 == o {
      assert From(m[r := n], o) == Bump(From(m, o), r, n);
      SumBump(From(m, o), r, n);
    } else {
      assert From(m[r := n], o) == From(m, o);
    }
  }

  ghost predicate DeparturesOf(m: map<Route, int>, dep: map<Icao, int>) {
    Sum(dep) == Sum(m) && forall o :: Get(dep, o) == Outgoing(m, o)
  }

  lemma DeparturesGrow(m: map<Route, int>, dep: map<Icao, int>, r: Route, n: int)
    requires DeparturesOf(m, dep) && r !in m
    ensures DeparturesOf(m[r := n], Bump(dep, r.0, n))
  {
    SumBump(dep, r.0, n);
    SumBump(m, r, n);
    assert m[r := n] == Bump(m, r, n);
    forall o ensures Get(Bump(dep, r.0, n), o) == Outgoing(m[r := n], o) { OutgoingGrows(m, r, n, o); }
  }

  lemma OneDone(m: map<Route, int>, todo: set<Route>, r: Route)
    requires r in todo && todo <= m.Keys
    ensures r !in m - todo && (m - todo)[r := m[r]] == m - (todo - {r})
  { }

  /** for (o, d), n in items: dep[o] += n */
  method Departures(m: map<Route, int>) returns (dep: map<Icao, int>)
    ensures DeparturesOf(m, dep)
  {
    dep := map[];
    var todo := m.Keys;
    NoDepartures();
    assert m - todo == map[];
    while todo != {}
      invariant todo <= m.Keys && DeparturesOf(m - todo, dep)
      decreases |todo|
    {
      var r :| r in todo;
      OneDone(m, todo, r);
      DeparturesGrow(m - todo, dep, r, m[r]);
      dep := Bump(dep, r.0, m[r]);
      OneLess(m.Keys, todo, r);
      todo := todo - {r};
    }
    assert m - todo == m;
  }

  lemma NoDepartures()
    ensures DeparturesOf(map[], map[])
  {
    forall o ensures Outgoing(map[], o) == 0 { assert From(map[], o) == map[]; }
  }

  /** Retained routes with an operator code, and their coded flights. */
  ghost function Commercial(t: Tally, retained: map<Route, int>): map<Route, int> {
    map r | r in retained && Row(t.operators, r) != map[] :: Sum(Row(t.operators, r))
  }

  function CodedBetween(o: Icao, d: Icao): Group -> bool {
    (g: Group) => g.origin == o && g.destination == d && ProperOperator(g.operator)
  }

  /** The operators of a route add up to its rows with a three-letter code. */
  lemma {:induction false} OperatorsAddUp(rows: seq<Group>, o: Icao, d: Icao)
    requires ProperPair(o, d)
    ensures Sum(Row(Read(rows).operators, (o, d))) == FlightsWhere(rows, CodedBetween(o, d))
    ensures Row(Read(rows).operators, (o, d)) != map[] <==> Somewhere(rows, CodedBetween(o, d))
  {
    if rows != [] {
      var front, g := rows[..|rows| - 1], rows[|rows| - 1];
      OperatorsAddUp(front, o, d);
      SomewhereGrows(rows, CodedBetween(o, d));
      PairShapes(g);
      OperatorShapes(g.operator);
      SumBump(Row(Read(front).operators, (o, d)), g.operator, g.n);
    }
  }

  /** The commercial count of a retained route is its coded flights; there is none without a coded row. */
  lemma CommercialCounts(rows: seq<Group>, retained: map<Route, int>, o: Icao, d: Icao)
    requires ProperPair(o, d)
    ensures (o, d) in Commercial(Read(rows), retained) <==> (o, d) in retained && Somewhere(rows, CodedBetween(o, d))
    ensures (o, d) in Commercial(Read(rows), retained) ==>
      Commercial(Read(rows), retained)[(o, d)] == FlightsWhere(rows, CodedBetween(o, d))
  {
    OperatorsAddUp(rows, o, d);
  }

  /** Operator-coded departures over all departures, clamped to the unit interval. */
  ghost function Coverage(t: Tally, retained: map<Route, int>, o: Icao): real {
    var all := Outgoing(retained, o);
    if all == 0 then 0.0 else Outgoing(Commercial(t, retained), o) as real / all as real
  }

  /** The share of coded flights, nothing for an airport without departures. */
  lemma CoverageMeans(rows: seq<Group>, airports: map<Icao, Meta>, o: Icao)
    ensures
      var t := Read(rows);
      var retained := Part(t.routes, airports, Retained, t.routes.Keys);
      var coded, all := Outgoing(Commercial(t, retained), o), Outgoing(retained, o);
      && (all == 0 ==> coded == 0 && Coverage(t, retained, o) == 0.0)
      && Coverage(t, retained, o) * all as real == coded as real
  {
    CoverageNeedsNoClamp(rows, airports, o);
    hide Read, Part, Outgoing, Commercial;
    var t := Read(rows);
    var retained := Part(t.routes, airports, Retained, t.routes.Keys);
    var coded, all := Outgoing(Commercial(t, retained), o), Outgoing(retained, o);
    if all != 0 { QuotientTimes(coded, all); }
  }

  lemma QuotientTimes(a: int, b: int)
    requires b != 0
    ensures a as real / b as real * b as real == a as real
  { }

  function Clamped(x: real): real { if x < 0.0 then 0.0 else if x > 1.0 then 1.0 else x }

  /** Coded departures never exceed all departures, so the clamp changes nothing. */
  lemma CoverageNeedsNoClamp(rows: seq<Group>, airports: map<Icao, Meta>, o: Icao)
    ensures var t := Read(rows);
            var retained := Part(t.routes, airports, Retained, t.routes.Keys);
      && 0 <= Outgoing(Commercial(t, retained), o) <= Outgoing(retained, o)
      && Clamped(Coverage(t, retained, o)) == Coverage(t, retained, o)
  {
    ReadKeeps(rows);
    var t := Read(rows);
    var retained := Part(t.routes, airports, Retained, t.routes.Keys);
    var coded, all := From(Commercial(t, retained), o), From(retained, o);
    forall r | r in coded ensures 0 <= coded[r] <= all[r] {
      assert CodedWithin(t, r);
      SumSign(t.operators[r]);
    }
    SumMonotone(coded, all);
    SumSign(coded);
    SumSign(all);
    if Sum(all) > 0 { UnitQuotient(Sum(coded), Sum(all)); }
  }

  lemma {:induction false} SumSign<K>(m: map<K, int>)
    requires forall k :: k in m ==> m[k] >= 0
    ensures Sum(m) >= 0
  {
    SumMonotone(map[], m);
  }

  lemma UnitQuotient(a: int, b: int)
    requires 0 <= a <= b && b > 0
    ensures 0.0 <= a as real / b as real <= 1.0
  { }

  // ------------------------------------------------------------------
  // Degrees
  // ------------------------------------------------------------------

  type Neighbours = map<Icao, set<Icao>>

  function Of(n: Neighbours, x: Icao): set<Icao> { if x in n then n[x] else {} }

  function Sizes(n: Neighbours): map<Icao, int> { map x | x in n :: |n[x]| }

  function Busy(m: map<Route, int>, minimum: int): set<Route> { set r | r in m && m[r] >= minimum }

  ghost predicate OutOf(busy: set<Route>, n: Neighbours) { forall o, d :: d in Of(n, o) <==> (o, d) in busy }

  ghost predicate InOf(busy: set<Route>, n: Neighbours) { forall o, d :: o in Of(n, d) <==> (o, d) in busy }

  ghost predicate NeighboursOf(busy: set<Route>, outgoing: Neighbours, incoming: Neighbours) {
    && OutOf(busy, outgoing) && InOf(busy, incoming)
    && Sum(Sizes(outgoing)) == |busy| && Sum(Sizes(incoming)) == |busy|
  }

  function AddTo(n: Neighbours, x: Icao, y: Icao): Neighbours { n[x := Of(n, x) + {y}] }

  lemma SizesGrow(n: Neighbours, x: Icao, y: Icao)
    requires y !in Of(n, x)
    ensures Sum(Sizes(AddTo(n, x, y))) == Sum(Sizes(n)) + 1
  {
    assert |Of(n, x) + {y}| == |Of(n, x)| + 1;
    assert Sizes(AddTo(n, x, y)) == Bump(Sizes(n), x, 1);
    SumBump(Sizes(n), x, 1);
  }

  lemma OutGrows(busy: set<Route>, n: Neighbours, x: Icao, y: Icao)
    requires OutOf(busy, n)
    ensures OutOf(busy + {(x, y)}, AddTo(n, x, y))
  {
    forall o, d
      ensures d in Of(AddTo(n, x, y), o) <==> (o, d) in busy + {(x, y)}
    {
      assert d in Of(n, o) <==> (o, d) in busy;
    }
  }

  lemma InGrows(busy: set<Route>, n: Neighbours, x: Icao, y: Icao)
    requires InOf(busy, n)
    ensures InOf(busy + {(x, y)}, AddTo(n, y, x))
  {
    forall o, d
      ensures o in Of(AddTo(n, y, x), d) <==> (o, d) in busy + {(x, y)}
    {
      assert o in Of(n, d) <==> (o, d) in busy;
    }
  }

  lemma NeighboursGrow(busy: set<Route>, outgoing: Neighbours, incoming: Neighbours, x: Icao, y: Icao)
    requires NeighboursOf(busy, outgoing, incoming) && (x, y) !in busy
    ensures NeighboursOf(busy + {(x, y)}, AddTo(outgoing, x, y), AddTo(incoming, y, x))
  {
    OutGrows(busy, outgoing, x, y);
    InGrows(busy, incoming, x, y);
    SizesGrow(outgoing, x, y);
    SizesGrow(incoming, y, x);
  }

  /** Both degree tables; each busy route adds one to each side, so the summed degrees agree. */
  method Degrees(commercial: map<Route, int>, minimum: int) returns (outgoing: Neighbours, incoming: Neighbours)
    ensures NeighboursOf(Busy(commercial, minimum), outgoing, incoming)
    ensures Sum(Sizes(outgoing)) == Sum(Sizes(incoming))
  {
    outgoing, incoming := map[], map[];
    var todo := Busy(commercial, minimum);
    ghost var done: set<Route> := {};
    assert Sizes(outgoing) == map[];
    while todo != {}
      invariant done !! todo && done + todo == Busy(commercial, minimum) && NeighboursOf(done, outgoing, incoming)
      decreases |todo|
    {
      var r :| r in todo;
      NeighboursGrow(done, outgoing, incoming, r.0, r.1);
      assert r == (r.0, r.1);
      outgoing, incoming := AddTo(outgoing, r.0, r.1), AddTo(incoming, r.1, r.0);
      todo, done := todo - {r}, done + {r};
    }
    assert done == Busy(commercial, minimum);
  }

  const MIN_DEPARTURES: int := 53

  /** An airport is published when it has enough coded departures. */
  ghost predicate Published(commercial: map<Route, int>, x: Icao) { Outgoing(commercial, x) >= MIN_DEPARTURES }

  /** Both minima being 53, every airport with an out-degree is published, so published out-degrees lose nothing. */
  lemma BusyOriginsArePublished(commercial: map<Route, int>, outgoing: Neighbours, incoming: Neighbours, o: Icao)
    requires forall r :: r in commercial ==> commercial[r] >= 0
    requires NeighboursOf(Busy(commercial, MIN_DEPARTURES), outgoing, incoming) && Of(outgoing, o) != {}
    ensures Published(commercial, o)
  {
    var d :| d in Of(outgoing, o);
    assert (o, d) in Busy(commercial, MIN_DEPARTURES);
    var m := From(commercial, o);
    SumPick(m, (o, d));
    SumSign(m - {(o, d)});
  }

  /** What the aggregation feeds into the degree tables is never negative. */
  lemma CommercialIsNonNegative(rows: seq<Group>, retained: map<Route, int>, r: Route)
    requires r in Commercial(Read(rows), retained)
    ensures Commercial(Read(rows), retained)[r] >= 0
  {
    ReadKeeps(rows);
    assert CodedWithin(Read(rows), r);
    SumSign(Read(rows).operators[r]);
  }

  /** The airports with a row in the published table. */
  ghost function PublishedAirports(commercial: map<Route, int>): set<Icao> {
    set r | r in commercial && Published(commercial, r.0) :: r.0
  }

  /** One degree column, over the rows of the given airports. */
  function Column(n: Neighbours, airports: set<Icao>): map<Icao, int> { map x | x in airports :: |Of(n, x)| }

  function End(out: bool, r: Route): Icao { if out then r.0 else r.1 }

  function Pair(out: bool, x: Icao, y: Icao): Route { if out then (x, y) else (y, x) }

  ghost predicate Lists(busy: set<Route>, n: Neighbours, out: bool) {
    forall x, y :: y in Of(n, x) <==> Pair(out, x, y) in busy
  }

  /** Pairing with a fixed airport loses nothing. */
  lemma {:induction false} PairsCount(out: bool, x: Icao, ys: set<Icao>)
    ensures |set y | y in ys :: Pair(out, x, y)| == |ys|
    decreases |ys|
  {
    var pairs := set y | y in ys :: Pair(out, x, y);
    if ys == {} {
      assert pairs == {};
    } else {
      var y :| y in ys;
      PairsCount(out, x, ys - {y});
      assert pairs - {Pair(out, x, y)} == set z | z in ys - {y} :: Pair(out, x, z);
      assert Pair(out, x, y) in pairs;
    }
  }

  function Ending(busy: set<Route>, out: bool, airports: set<Icao>): set<Route> {
    set r | r in busy && End(out, r) in airports
  }

  lemma OneAirportCounts(busy: set<Route>, n: Neighbours, out: bool, x: Icao)
    requires Lists(busy, n, out)
    ensures |Ending(busy, out, {x})| == |Of(n, x)|
  {
    var pairs := set y | y in Of(n, x) :: Pair(out, x, y);
    forall r | r in Ending(busy, out, {x}) ensures r in pairs {
      var y := End(!out, r);
      assert r == Pair(out, x, y);
      assert y in Of(n, x);
    }
    assert pairs == Ending(busy, out, {x});
    PairsCount(out, x, Of(n, x));
  }

  lemma EndingSplits(busy: set<Route>, out: bool, airports: set<Icao>, x: Icao)
    requires x in airports
    ensures |Ending(busy, out, airports)| == |Ending(busy, out, {x})| + |Ending(busy, out, airports - {x})|
  {
    hide End;
    var here, others := Ending(busy, out, {x}), Ending(busy, out, airports - {x});
    assert Ending(busy, out, airports) == here + others && here !! others;
  }

  lemma ColumnSplits(n: Neighbours, airports: set<Icao>, x: Icao)
    requires x in airports
    ensures Sum(Column(n, airports)) == |Of(n, x)| + Sum(Column(n, airports - {x}))
  {
    hide Of;
    SumPick(Column(n, airports), x);
    assert Column(n, airports) - {x} == Column(n, airports - {x});
  }

  /** Summed over any airports, a degree column counts the busy routes with that end among them. */
  lemma {:induction false} ColumnCounts(busy: set<Route>, n: Neighbours, out: bool, airports: set<Icao>)
    requires Lists(busy, n, out)
    ensures Sum(Column(n, airports)) == |Ending(busy, out, airports)|
    decreases |airports|
  {
    hide Lists, Of, End;
    if airports == {} {
      assert Ending(busy, out, airports) == {} && Column(n, airports) == map[];
    } else {
      var x :| x in airports;
      ColumnSplits(n, airports, x);
      EndingSplits(busy, out, airports, x);
      OneAirportCounts(busy, n, out, x);
      ColumnCounts(busy, n, out, airports - {x});
    }
  }

  /** An airport without departures is not published. */
  lemma PublishedDepart(commercial: map<Route, int>, x: Icao)
    ensures Published(commercial, x) <==> x in PublishedAirports(commercial)
  {
    if forall r :: r in commercial ==> r.0 != x { assert From(commercial, x) == map[]; }
  }

  /** Some of a set's members are as many as all of them only when they are all of them. */
  lemma PartOfSet<T>(part: set<T>, whole: set<T>)
    requires part <= whole
    ensures |part| <= |whole| && (|part| == |whole| <==> part == whole)
  {
    assert whole == part + (whole - part);
  }

  lemma OutColumn(commercial: map<Route, int>, outgoing: Neighbours, incoming: Neighbours)
    requires forall r :: r in commercial ==> commercial[r] >= 0
    requires NeighboursOf(Busy(commercial, MIN_DEPARTURES), outgoing, incoming)
    ensures Sum(Column(outgoing, PublishedAirports(commercial))) == |Busy(commercial, MIN_DEPARTURES)|
  {
    hide Published, Outgoing, Column, Sum, Busy;
    var busy, rows := Busy(commercial, MIN_DEPARTURES), PublishedAirports(commercial);
    ColumnCounts(busy, outgoing, true, rows);
    forall r | r in busy ensures r.0 in rows {
      assert r == (r.0, r.1) && r.1 in Of(outgoing, r.0);
      BusyOriginsArePublished(commercial, outgoing, incoming, r.0);
      PublishedDepart(commercial, r.0);
    }
    assert Ending(busy, true, rows) == busy;
  }

  lemma InColumn(commercial: map<Route, int>, busy: set<Route>, incoming: Neighbours)
    requires InOf(busy, incoming)
    ensures Sum(Column(incoming, PublishedAirports(commercial))) == |set r | r in busy && Published(commercial, r.1)|
  {
    hide Published, Outgoing, Column, Sum;
    var rows := PublishedAirports(commercial);
    ColumnCounts(busy, incoming, false, rows);
    forall r | r in busy ensures Published(commercial, r.1) <==> r.1 in rows { PublishedDepart(commercial, r.1); }
    assert Ending(busy, false, rows) == set r | r in busy && Published(commercial, r.1);
  }

  /**
   The degree columns of the published table: the out-degrees add up to all
   busy routes, the in-degrees to those with a published destination, so the
   two agree exactly when every busy route ends at a published airport.
   */
  lemma PublishedSums(commercial: map<Route, int>, outgoing: Neighbours, incoming: Neighbours)
    requires forall r :: r in commercial ==> commercial[r] >= 0
    requires NeighboursOf(Busy(commercial, MIN_DEPARTURES), outgoing, incoming)
    ensures var busy, rows := (set r | r in commercial && commercial[r] >= 53), PublishedAirports(commercial);
      && Sum(Column(outgoing, rows)) == |busy|
      && Sum(Column(incoming, rows)) == |set r | r in busy && Outgoing(commercial, r.1) >= 53|
      && Sum(Column(incoming, rows)) <= Sum(Column(outgoing, rows))
      && (Sum(Column(incoming, rows)) == Sum(Column(outgoing, rows)) <==>
          forall r :: r in busy ==> Outgoing(commercial, r.1) >= 53)
    ensures forall x :: x in PublishedAirports(commercial) <==> Outgoing(commercial, x) >= 53
  {
    hide Column, Sum, PublishedAirports, Outgoing;
    var busy := Busy(commercial, MIN_DEPARTURES);
    assert busy == set r | r in commercial && commercial[r] >= 53;
    forall x ensures x in PublishedAirports(commercial) <==> Outgoing(commercial, x) >= 53 {
      PublishedDepart(commercial, x);
    }
    OutColumn(commercial, outgoing, incoming);
    InColumn(commercial, busy, incoming);
    var kept := set r | r in busy && Published(commercial, r.1);
    assert kept == set r | r in busy && Outgoing(commercial, r.1) >= 53;
    PartOfSet(kept, busy);
  }

  /** The two columns can really differ: one busy route to an airport that departs nothing itself. */
  lemma BusyDestinationMayBeUnpublished(o: Icao, d: Icao, outgoing: Neighbours, incoming: Neighbours)
    requires o != d
    requires NeighboursOf(Busy(map[(o, d) := MIN_DEPARTURES], MIN_DEPARTURES), outgoing, incoming)
    ensures var rows := PublishedAirports(map[(o, d) := MIN_DEPARTURES]);
            Sum(Column(outgoing, rows)) == 1 && Sum(Column(incoming, rows)) == 0
  {
    hide Column, NeighboursOf;
    var commercial: map<Route, int> := map[(o, d) := MIN_DEPARTURES];
    PublishedSums(commercial, outgoing, incoming);
    assert Busy(commercial, MIN_DEPARTURES) == {(o, d)};
    assert From(commercial, d) == map[];
    assert (set r | r in {(o, d)} && Published(commercial, r.1)) == {};
  }
}
