/**
 Route-graph connectivity: union-find with path halving and no union by rank,
 over a dictionary that starts empty and gains airports as routes are read.
 */
module RouteGraph {
  import opened Common
  import Counters

  type Airport = string
  type Route = (Airport, Airport)

  /** The dictionary of the source, and a height that every step up decreases. */
  type Parents = map<Airport, Airport>
  type Heights = map<Airport, nat>

  datatype FlightRow = FlightRow(dep: Option<Airport>, arr: Option<Airport>)

  predicate Usable(row: FlightRow) { row.dep.Some? && row.arr.Some? && row.dep.value != "" && row.arr.value != "" }

  /** The directed routes of the usable rows. */
  ghost function RoutesOf(rows: seq<FlightRow>): set<Route> {
    set row | row in rows && Usable(row) :: (row.dep.value, row.arr.value)
  }

  lemma RoutesOfOne(row: FlightRow)
    ensures RoutesOf([row]) == if Usable(row) then {(row.dep.value, row.arr.value)} else {}
  { }

  lemma RoutesOfAppend(rows: seq<FlightRow>, row: FlightRow)
    ensures RoutesOf(rows + [row]) == RoutesOf(rows) + RoutesOf([row])
  { }

  // ------------------------------------------------------------------
  // The forest behind the parent dictionary
  // ------------------------------------------------------------------

  /** The parent of x is known, and lower than x unless x is a root. */
  ghost predicate LinkOk(parent: Parents, height: Heights, x: Airport)
    requires x in parent && parent.Keys == height.Keys
  {
    parent[x] in parent && (parent[x] != x ==> height[parent[x]] < height[x])
  }

  /** Heights fall along every parent link: no cycles. */
  ghost predicate Forest(parent: Parents, height: Heights) {
    && parent.Keys == height.Keys
    && forall x {:trigger LinkOk(parent, height, x)} :: x in parent ==> LinkOk(parent, height, x)
  }

  ghost function Root(parent: Parents, height: Heights, x: Airport): (r: Airport)
    requires Forest(parent, height) && x in parent
    ensures r in parent && parent[r] == r
    decreases height[x]
  {
    assert LinkOk(parent, height, x);
    if parent[x] == x then x else Root(parent, height, parent[x])
  }

  ghost function Roots(parent: Parents): set<Airport> { set x | x in parent && parent[x] == x }

  function Halved(parent: Parents, x: Airport): Parents
    requires x in parent && parent[x] in parent
  {
    parent[x := parent[parent[x]]]
  }

  lemma HalvingIsForest(parent: Parents, height: Heights, x: Airport)
    requires Forest(parent, height) && x in parent && parent[x] in parent
    ensures Forest(Halved(parent, x), height) && Roots(Halved(parent, x)) == Roots(parent)
  {
    var halved := Halved(parent, x);
    assert LinkOk(parent, height, x) && LinkOk(parent, height, parent[x]);
    forall y | y in halved ensures LinkOk(halved, height, y) { assert LinkOk(parent, height, y); }
    forall y | y in parent ensures y in Roots(halved) <==> y in Roots(parent) { }
  }

  lemma {:induction false} HalvingKeepsRoots(parent: Parents, height: Heights, x: Airport, y: Airport)
    requires Forest(parent, height) && x in parent && parent[x] in parent && y in parent
    requires Forest(Halved(parent, x), height)
    ensures Root(Halved(parent, x), height, y) == Root(parent, height, y)
    decreases height[y]
  {
    assert LinkOk(parent, height, y) && LinkOk(parent, height, parent[y]) && LinkOk(Halved(parent, x), height, y);
    if parent[y] != y {
      HalvingKeepsRoots(parent, height, x, parent[y]);
      if y == x && parent[parent[y]] != parent[y] {
        HalvingKeepsRoots(parent, height, x, parent[parent[y]]);
      }
    }
  }

  /** Linking one root below another lifts the heights of its whole tree. */
  ghost function Lifted(parent: Parents, height: Heights, ra: Airport, rb: Airport): Heights
    requires Forest(parent, height) && ra in parent && rb in parent
  {
    map y | y in parent :: if Root(parent, height, y) == ra then height[y] + height[rb] + 1 else height[y]
  }

  lemma LinkIsForest(parent: Parents, height: Heights, ra: Airport, rb: Airport)
    requires Forest(parent, height) && ra in Roots(parent) && rb in Roots(parent) && ra != rb
    ensures Forest(parent[ra := rb], Lifted(parent, height, ra, rb)) && Roots(parent[ra := rb]) == Roots(parent) - {ra}
  {
    var linked, lifted := parent[ra := rb], Lifted(parent, height, ra, rb);
    forall y | y in linked ensures LinkOk(linked, lifted, y) { assert LinkOk(parent, height, y); }
  }

  lemma {:induction false} LinkedRoots(parent: Parents, height: Heights, ra: Airport, rb: Airport, y: Airport)
    requires Forest(parent, height) && ra in Roots(parent) && rb in Roots(parent) && ra != rb && y in parent
    requires Forest(parent[ra := rb], Lifted(parent, height, ra, rb))
    ensures Root(parent[ra := rb], Lifted(parent, height, ra, rb), y) ==
            (if Root(parent, height, y) == ra then rb else Root(parent, height, y))
    decreases height[y]
  {
    assert LinkOk(parent, height, y);
    if parent[y] != y { LinkedRoots(parent, height, ra, rb, parent[y]); }
  }

  lemma {:induction false} FreshRoots(parent: Parents, height: Heights, x: Airport, y: Airport)
    requires Forest(parent, height) && x !in parent && y in parent
    requires Forest(parent[x := x], height[x := 0])
    ensures Root(parent[x := x], height[x := 0], y) == Root(parent, height, y)
    decreases height[y]
  {
    assert LinkOk(parent, height, y);
    if parent[y] != y { FreshRoots(parent, height, x, parent[y]); }
  }

  // ------------------------------------------------------------------
  // Connectivity of the undirected route graph
  // ------------------------------------------------------------------

  predicate Adjacent(routes: set<Route>, x: Airport, y: Airport) { (x, y) in routes || (y, x) in routes }

  /** `path` walks from x to y along routes flown in either direction. */
  predicate Walk(routes: set<Route>, path: seq<Airport>, x: Airport, y: Airport) {
    && |path| > 0 && path[0] == x && path[|path| - 1] == y
    && forall i :: 0 <= i < |path| - 1 ==> Adjacent(routes, path[i], path[i + 1])
  }

  ghost predicate Connected(routes: set<Route>, x: Airport, y: Airport) {
    exists path :: Walk(routes, path, x, y)
  }

  lemma ConnectedSelf(routes: set<Route>, x: Airport)
    ensures Connected(routes, x, x)
  {
    assert Walk(routes, [x], x, x);
  }

  lemma ConnectedByRoute(routes: set<Route>, x: Airport, y: Airport)
    requires Adjacent(routes, x, y)
    ensures Connected(routes, x, y)
  {
    assert Walk(routes, [x, y], x, y);
  }

  lemma ConnectedTransitive(routes: set<Route>, x: Airport, y: Airport, z: Airport)
    requires Connected(routes, x, y) && Connected(routes, y, z)
    ensures Connected(routes, x, z)
  {
    var p :| Walk(routes, p, x, y);
    var q :| Walk(routes, q, y, z);
    var w := p + q[1..];
    forall i | 0 <= i < |w| - 1 ensures Adjacent(routes, w[i], w[i + 1]) {
      if i >= |p| - 1 { assert Adjacent(routes, q[i - |p| + 1], q[i - |p| + 2]); }
    }
    assert Walk(routes, w, x, z);
  }

  lemma ConnectedSymmetric(routes: set<Route>, x: Airport, y: Airport)
    requires Connected(routes, x, y)
    ensures Connected(routes, y, x)
  {
    var p :| Walk(routes, p, x, y);
    var w := seq(|p|, i requires 0 <= i < |p| => p[|p| - 1 - i]);
    forall i | 0 <= i < |w| - 1 ensures Adjacent(routes, w[i], w[i + 1]) {
      assert Adjacent(routes, p[|p| - 2 - i], p[|p| - 2 - i + 1]);
    }
    assert Walk(routes, w, y, x);
  }

  lemma ConnectedGrows(routes: set<Route>, more: set<Route>, x: Airport, y: Airport)
    requires routes <= more && Connected(routes, x, y)
    ensures Connected(more, x, y)
  {
    var p :| Walk(routes, p, x, y);
    assert Walk(more, p, x, y);
  }

  // ------------------------------------------------------------------
  // Agreement of forest and graph
  // ------------------------------------------------------------------

  ghost predicate RoutesRespected(parent: Parents, height: Heights, routes: set<Route>)
    requires Forest(parent, height)
  {
    forall e {:trigger Respected(parent, height, e)} :: e in routes ==> Respected(parent, height, e)
  }

  /** Both ends of a route are known and share a root. */
  ghost predicate Respected(parent: Parents, height: Heights, e: Route)
    requires Forest(parent, height)
  {
    e.0 in parent && e.1 in parent && Root(parent, height, e.0) == Root(parent, height, e.1)
  }

  ghost predicate LinksJustified(parent: Parents, height: Heights, routes: set<Route>)
    requires Forest(parent, height)
  {
    forall x {:trigger Justified(parent, height, routes, x)} :: x in parent ==> Justified(parent, height, routes, x)
  }

  ghost predicate Justified(parent: Parents, height: Heights, routes: set<Route>, x: Airport)
    requires Forest(parent, height) && x in parent
  {
    Connected(routes, x, Root(parent, height, x))
  }

  lemma {:induction false} WalkKeepsRoot(parent: Parents, height: Heights, routes: set<Route>,
                                         path: seq<Airport>, x: Airport, y: Airport)
    requires Forest(parent, height) && RoutesRespected(parent, height, routes)
    requires Walk(routes, path, x, y) && x in parent
    ensures y in parent && Root(parent, height, x) == Root(parent, height, y)
    decreases |path|
  {
    if |path| > 1 {
      assert Adjacent(routes, path[0], path[1]);
      if (path[0], path[1]) in routes {
        assert Respected(parent, height, (path[0], path[1]));
      } else {
        assert Respected(parent, height, (path[1], path[0]));
      }
      forall i | 0 <= i < |path| - 2 ensures Adjacent(routes, path[1..][i], path[1..][i + 1]) {
        assert Adjacent(routes, path[i + 1], path[i + 2]);
      }
      WalkKeepsRoot(parent, height, routes, path[1..], path[1], y);
    }
  }

  /** Two airports share a root exactly when the route graph connects them. */
  lemma SameRootIsConnected(parent: Parents, height: Heights, routes: set<Route>, x: Airport, y: Airport)
    requires Forest(parent, height) && RoutesRespected(parent, height, routes) && LinksJustified(parent, height, routes)
    requires x in parent && y in parent
    ensures Root(parent, height, x) == Root(parent, height, y) <==> Connected(routes, x, y)
  {
    assert Justified(parent, height, routes, x) && Justified(parent, height, routes, y);
    if Root(parent, height, x) == Root(parent, height, y) {
      ConnectedSymmetric(routes, y, Root(parent, height, y));
      ConnectedTransitive(routes, x, Root(parent, height, x), y);
    } else if Connected(routes, x, y) {
      var p :| Walk(routes, p, x, y);
      WalkKeepsRoot(parent, height, routes, p, x, y);
    }
  }

  ghost predicate RootKept(p0: Parents, h0: Heights, p1: Parents, h1: Heights, y: Airport)
    requires Forest(p0, h0) && Forest(p1, h1) && y in p0 && y in p1
  {
    Root(p1, h1, y) == Root(p0, h0, y)
  }

  /** Every airport known before keeps its root. */
  ghost predicate SameRoots(p0: Parents, h0: Heights, p1: Parents, h1: Heights) {
    && Forest(p0, h0) && Forest(p1, h1) && p0.Keys <= p1.Keys
    && forall y {:trigger RootKept(p0, h0, p1, h1, y)} :: y in p0 ==> RootKept(p0, h0, p1, h1, y)
  }

  lemma SameRootsTransitive(p0: Parents, h0: Heights, p1: Parents, h1: Heights,
                            p2: Parents, h2: Heights)
    requires SameRoots(p0, h0, p1, h1) && SameRoots(p1, h1, p2, h2)
    ensures SameRoots(p0, h0, p2, h2)
  {
    forall y | y in p0 ensures RootKept(p0, h0, p2, h2, y) {
      assert RootKept(p0, h0, p1, h1, y) && RootKept(p1, h1, p2, h2, y);
    }
  }

  /** The root of an airport, which is itself before it is first mentioned. */
  ghost function RootOr(parent: Parents, height: Heights, x: Airport): Airport
    requires Forest(parent, height)
  {
    if x in parent then Root(parent, height, x) else x
  }

  lemma FreshIsForest(p: Parents, h: Heights, x: Airport)
    requires Forest(p, h) && x !in p
    ensures SameRoots(p, h, p[x := x], h[x := 0]) && Roots(p[x := x]) == Roots(p) + {x}
  {
    var p1, h1 := p[x := x], h[x := 0];
    forall y | y in p1 ensures LinkOk(p1, h1, y) { if y != x { assert LinkOk(p, h, y); } }
    forall y | y in p ensures RootKept(p, h, p1, h1, y) { FreshRoots(p, h, x, y); }
  }

  ghost predicate RootMoved(p0: Parents, h0: Heights, p1: Parents, h1: Heights,
                            a: Airport, b: Airport, y: Airport)
    requires Forest(p0, h0) && Forest(p1, h1) && y in p1
  {
    Root(p1, h1, y) == (if RootOr(p0, h0, y) == RootOr(p0, h0, a) then RootOr(p0, h0, b) else RootOr(p0, h0, y))
  }

  /** What union(a, b) does to every root: the tree of a now hangs below the root of b. */
  ghost predicate Merged(p0: Parents, h0: Heights, p1: Parents, h1: Heights,
                         a: Airport, b: Airport) {
    && Forest(p0, h0) && Forest(p1, h1) && p1.Keys == p0.Keys + {a, b}
    && forall y {:trigger RootMoved(p0, h0, p1, h1, a, b, y)} :: y in p1 ==> RootMoved(p0, h0, p1, h1, a, b, y)
  }

  lemma LinkMerges(p: Parents, h: Heights, ra: Airport, rb: Airport)
    requires Forest(p, h) && ra in Roots(p) && rb in Roots(p) && ra != rb
    ensures Merged(p, h, p[ra := rb], Lifted(p, h, ra, rb), ra, rb) && Roots(p[ra := rb]) == Roots(p) - {ra}
  {
    LinkIsForest(p, h, ra, rb);
    var p1, h1 := p[ra := rb], Lifted(p, h, ra, rb);
    assert p1.Keys == p.Keys + {ra, rb};
    forall y | y in p1 ensures RootMoved(p, h, p1, h1, ra, rb, y) { LinkedRoots(p, h, ra, rb, y); }
  }

  /** Linking the two roots found merges the two airports looked up. */
  lemma MergedThroughFinds(p0: Parents, h0: Heights, p1: Parents, h1: Heights,
                           p2: Parents, h2: Heights, a: Airport, b: Airport)
    requires SameRoots(p0, h0, p1, h1) && p1.Keys == p0.Keys + {a, b}
    requires Root(p1, h1, a) == RootOr(p0, h0, a) && Root(p1, h1, b) == RootOr(p0, h0, b)
    requires Merged(p1, h1, p2, h2, Root(p1, h1, a), Root(p1, h1, b))
    ensures Merged(p0, h0, p2, h2, a, b)
  {
    forall y | y in p2 ensures RootMoved(p0, h0, p2, h2, a, b, y) {
      assert RootMoved(p1, h1, p2, h2, Root(p1, h1, a), Root(p1, h1, b), y);
      if y in p0 { assert RootKept(p0, h0, p1, h1, y); }
    }
  }

  lemma MergedRespects(p0: Parents, h0: Heights, p1: Parents, h1: Heights,
                       routes: set<Route>, a: Airport, b: Airport)
    requires Merged(p0, h0, p1, h1, a, b) && RoutesRespected(p0, h0, routes)
    ensures RoutesRespected(p1, h1, routes + {(a, b)})
  {
    forall e | e in routes + {(a, b)} ensures Respected(p1, h1, e) {
      if e in routes { assert Respected(p0, h0, e); }
      assert RootMoved(p0, h0, p1, h1, a, b, e.0) && RootMoved(p0, h0, p1, h1, a, b, e.1);
    }
  }

  lemma MergedJustified(p0: Parents, h0: Heights, p1: Parents, h1: Heights,
                        routes: set<Route>, a: Airport, b: Airport)
    requires Merged(p0, h0, p1, h1, a, b) && LinksJustified(p0, h0, routes)
    ensures LinksJustified(p1, h1, routes + {(a, b)})
  {
    var more := routes + {(a, b)};
    forall y | y in p1 ensures Justified(p1, h1, more, y) {
      assert RootMoved(p0, h0, p1, h1, a, b, y);
      OldRootConnected(p0, h0, routes, more, y);
      if RootOr(p0, h0, y) == RootOr(p0, h0, a) {
        OldRootConnected(p0, h0, routes, more, a);
        OldRootConnected(p0, h0, routes, more, b);
        ConnectedSymmetric(more, a, RootOr(p0, h0, a));
        ConnectedTransitive(more, y, RootOr(p0, h0, a), a);
        ConnectedByRoute(more, a, b);
        ConnectedTransitive(more, y, a, b);
        ConnectedTransitive(more, y, b, RootOr(p0, h0, b));
      }
    }
  }

  lemma OldRootConnected(parent: Parents, height: Heights, routes: set<Route>, more: set<Route>, y: Airport)
    requires Forest(parent, height) && LinksJustified(parent, height, routes) && routes <= more
    ensures Connected(more, y, RootOr(parent, height, y))
  {
    if y in parent {
      assert Justified(parent, height, routes, y);
      ConnectedGrows(routes, more, y, Root(parent, height, y));
    } else {
      ConnectedSelf(more, y);
    }
  }

  // ------------------------------------------------------------------
  // Component sizes
  // ------------------------------------------------------------------

  ghost function Members(parent: Parents, height: Heights, within: set<Airport>, r: Airport): set<Airport>
    requires Forest(parent, height) && within <= parent.Keys
  {
    set x | x in within && Root(parent, height, x) == r
  }

  ghost predicate Seen(parent: Parents, height: Heights, comp: map<Airport, int>, x: Airport)
    requires Forest(parent, height) && x in parent
  {
    Root(parent, height, x) in comp
  }

  /** A tally of the roots of the airports looked at so far. */
  ghost predicate Tallied(parent: Parents, height: Heights, within: set<Airport>, comp: map<Airport, int>)
    requires Forest(parent, height) && within <= parent.Keys
  {
    && (forall x {:trigger Seen(parent, height, comp, x)} :: x in within ==> Seen(parent, height, comp, x))
    && (forall r :: r in comp ==> comp[r] == |Members(parent, height, within, r)| && comp[r] > 0)
    && Counters.Sum(comp) == |within|
  }

  lemma MembersGrow(p: Parents, h: Heights, within: set<Airport>, x: Airport, r: Airport)
    requires Forest(p, h) && within <= p.Keys && x in p && x !in within
    ensures |Members(p, h, within + {x}, r)| == |Members(p, h, within, r)| + (if Root(p, h, x) == r then 1 else 0)
  {
    var was := Members(p, h, within, r);
    assert Members(p, h, within + {x}, r) == if Root(p, h, x) == r then was + {x} else was;
  }

  lemma TallyOne(p: Parents, h: Heights, within: set<Airport>, comp: map<Airport, int>, x: Airport)
    requires Forest(p, h) && within <= p.Keys && Tallied(p, h, within, comp)
    requires x in p && x !in within
    ensures Tallied(p, h, within + {x}, Counters.Bump(comp, Root(p, h, x), 1))
  {
    var at := Root(p, h, x);
    var bumped := Counters.Bump(comp, at, 1);
    Counters.SumBump(comp, at, 1);
    forall y | y in within + {x} ensures Seen(p, h, bumped, y) { if y in within { assert Seen(p, h, comp, y); } }
    forall r | r in bumped ensures bumped[r] == |Members(p, h, within + {x}, r)| && bumped[r] > 0 {
      MembersGrow(p, h, within, x, r);
      if r !in comp { NoMembers(p, h, within, comp, r); }
    }
  }

  lemma NoMembers(p: Parents, h: Heights, within: set<Airport>, comp: map<Airport, int>, r: Airport)
    requires Forest(p, h) && within <= p.Keys && Tallied(p, h, within, comp) && r !in comp
    ensures Members(p, h, within, r) == {}
  {
    forall x | x in within ensures Root(p, h, x) != r { assert Seen(p, h, comp, x); }
  }

  lemma SameRootsReflexive(p: Parents, h: Heights)
    requires Forest(p, h)
    ensures SameRoots(p, h, p, h)
  { }

  /** Once every airport is counted, the keys are exactly the roots. */
  lemma FullTally(p: Parents, h: Heights, comp: map<Airport, int>)
    requires Forest(p, h) && Tallied(p, h, p.Keys, comp) && comp.Keys <= Roots(p)
    ensures comp.Keys == Roots(p) && |comp| == |Roots(p)|
  {
    forall r | r in Roots(p) ensures r in comp { assert Seen(p, h, comp, r) && Root(p, h, r) == r; }
    assert |comp| == |comp.Keys|;
  }

  lemma MembersTransfer(p0: Parents, h0: Heights, p1: Parents, h1: Heights, r: Airport)
    requires SameRoots(p0, h0, p1, h1) && p0.Keys == p1.Keys
    ensures Members(p1, h1, p1.Keys, r) == Members(p0, h0, p0.Keys, r)
  {
    forall x | x in p0 ensures Root(p1, h1, x) == Root(p0, h0, x) { assert RootKept(p0, h0, p1, h1, x); }
  }

  lemma RootsTransfer(p0: Parents, h0: Heights, p1: Parents, h1: Heights)
    requires SameRoots(p0, h0, p1, h1) && p0.Keys == p1.Keys
    ensures Roots(p0) == Roots(p1)
  {
    forall x | x in p1 ensures x in Roots(p1) <==> x in Roots(p0) {
      assert RootKept(p0, h0, p1, h1, x) && LinkOk(p0, h0, x) && LinkOk(p1, h1, x);
    }
  }

  lemma TallyTransfers(p0: Parents, h0: Heights, p1: Parents, h1: Heights, comp: map<Airport, int>)
    requires SameRoots(p0, h0, p1, h1) && p0.Keys == p1.Keys && Tallied(p0, h0, p0.Keys, comp)
    ensures Tallied(p1, h1, p1.Keys, comp)
  {
    forall r | r in comp ensures comp[r] == |Members(p1, h1, p1.Keys, r)| { MembersTransfer(p0, h0, p1, h1, r); }
    forall x | x in p1 ensures Seen(p1, h1, comp, x) { assert RootKept(p0, h0, p1, h1, x) && Seen(p0, h0, comp, x); }
  }

  lemma GraphTransfers(p0: Parents, h0: Heights, p1: Parents, h1: Heights, routes: set<Route>)
    requires SameRoots(p0, h0, p1, h1) && p0.Keys == p1.Keys
    requires RoutesRespected(p0, h0, routes) && LinksJustified(p0, h0, routes)
    ensures RoutesRespected(p1, h1, routes) && LinksJustified(p1, h1, routes)
  {
    forall e | e in routes ensures Respected(p1, h1, e) {
      assert Respected(p0, h0, e);
      assert RootKept(p0, h0, p1, h1, e.0) && RootKept(p0, h0, p1, h1, e.1);
    }
    forall x | x in p1 ensures Justified(p1, h1, routes, x) {
      assert RootKept(p0, h0, p1, h1, x) && Justified(p0, h0, routes, x);
    }
  }

  ghost function Ends(routes: set<Route>): set<Airport> { (set e | e in routes :: e.0) + (set e | e in routes :: e.1) }

  lemma EndsGrow(routes: set<Route>, d: Airport, a: Airport)
    ensures Ends(routes + {(d, a)}) == Ends(routes) + {d, a}
  {
    var more := routes + {(d, a)};
    assert (d, a) in more;
    forall e | e in routes ensures e in more { }
  }

  ghost function ConnectedTo(routes: set<Route>, nodes: set<Airport>, r: Airport): set<Airport> {
    set x | x in nodes && Connected(routes, x, r)
  }

  ghost predicate Sized(routes: set<Route>, nodes: set<Airport>, comp: map<Airport, int>, r: Airport)
    requires r in comp
  {
    comp[r] == |ConnectedTo(routes, nodes, r)|
  }

  ghost predicate Covered(routes: set<Route>, comp: map<Airport, int>, x: Airport) {
    exists r :: r in comp && Connected(routes, x, r)
  }

  ghost predicate Apart(routes: set<Route>, q: Airport, r: Airport) { Connected(routes, q, r) ==> q == r }

  ghost predicate AllSized(routes: set<Route>, nodes: set<Airport>, comp: map<Airport, int>) {
    forall r {:trigger Sized(routes, nodes, comp, r)} :: r in comp ==> Sized(routes, nodes, comp, r)
  }

  ghost predicate AllCovered(routes: set<Route>, nodes: set<Airport>, comp: map<Airport, int>) {
    forall x {:trigger Covered(routes, comp, x)} :: x in nodes ==> Covered(routes, comp, x)
  }

  ghost predicate AllApart(routes: set<Route>, comp: map<Airport, int>) {
    forall q, r {:trigger Apart(routes, q, r)} :: q in comp && r in comp ==> Apart(routes, q, r)
  }

  /** One representative per connected component, with the size of that component. */
  ghost predicate IsComponentCount(routes: set<Route>, nodes: set<Airport>, comp: map<Airport, int>) {
    && comp.Keys <= nodes
    && AllSized(routes, nodes, comp) && AllCovered(routes, nodes, comp) && AllApart(routes, comp)
    && Counters.Sum(comp) == |nodes|
  }

  lemma MembersAreConnected(p: Parents, h: Heights, routes: set<Route>, r: Airport)
    requires Forest(p, h) && RoutesRespected(p, h, routes) && LinksJustified(p, h, routes) && r in Roots(p)
    ensures Members(p, h, p.Keys, r) == ConnectedTo(routes, p.Keys, r)
  {
    forall x | x in p
      ensures Root(p, h, x) == r <==> Connected(routes, x, r)
    {
      SameRootIsConnected(p, h, routes, x, r);
    }
  }

  lemma EveryNodeIsCovered(p: Parents, h: Heights, routes: set<Route>, comp: map<Airport, int>, x: Airport)
    requires Forest(p, h) && LinksJustified(p, h, routes) && Tallied(p, h, p.Keys, comp) && x in p
    ensures Covered(routes, comp, x)
  {
    assert Justified(p, h, routes, x) && Seen(p, h, comp, x);
  }

  lemma RootsAreApart(p: Parents, h: Heights, routes: set<Route>, q: Airport, r: Airport)
    requires Forest(p, h) && RoutesRespected(p, h, routes) && LinksJustified(p, h, routes)
    requires q in Roots(p) && r in Roots(p)
    ensures Apart(routes, q, r)
  {
    SameRootIsConnected(p, h, routes, q, r);
  }

  lemma RootIsSized(p: Parents, h: Heights, routes: set<Route>, comp: map<Airport, int>, r: Airport)
    requires Forest(p, h) && RoutesRespected(p, h, routes) && LinksJustified(p, h, routes)
    requires Tallied(p, h, p.Keys, comp) && r in comp && r in Roots(p)
    ensures Sized(routes, p.Keys, comp, r)
  {
    MembersAreConnected(p, h, routes, r);
  }

  lemma AllRootsSized(p: Parents, h: Heights, routes: set<Route>, comp: map<Airport, int>)
    requires Forest(p, h) && RoutesRespected(p, h, routes) && LinksJustified(p, h, routes)
    requires comp.Keys == Roots(p) && Tallied(p, h, p.Keys, comp)
    ensures AllSized(routes, p.Keys, comp)
  {
    forall r | r in comp ensures Sized(routes, p.Keys, comp, r) { RootIsSized(p, h, routes, comp, r); }
  }

  lemma AllNodesCovered(p: Parents, h: Heights, routes: set<Route>, comp: map<Airport, int>)
    requires Forest(p, h) && LinksJustified(p, h, routes) && Tallied(p, h, p.Keys, comp)
    ensures AllCovered(routes, p.Keys, comp)
  {
    forall x | x in p ensures Covered(routes, comp, x) { EveryNodeIsCovered(p, h, routes, comp, x); }
  }

  lemma AllRootsApart(p: Parents, h: Heights, routes: set<Route>, comp: map<Airport, int>)
    requires Forest(p, h) && RoutesRespected(p, h, routes) && LinksJustified(p, h, routes) && comp.Keys == Roots(p)
    ensures AllApart(routes, comp)
  {
    forall q, r | q in comp && r in comp ensures Apart(routes, q, r) { RootsAreApart(p, h, routes, q, r); }
  }

  lemma TallyIsComponentCount(p: Parents, h: Heights, routes: set<Route>, comp: map<Airport, int>)
    requires Forest(p, h) && RoutesRespected(p, h, routes) && LinksJustified(p, h, routes)
    requires comp.Keys == Roots(p) && Tallied(p, h, p.Keys, comp)
    ensures IsComponentCount(routes, p.Keys, comp)
  {
    AllRootsSized(p, h, routes, comp);
    AllNodesCovered(p, h, routes, comp);
    AllRootsApart(p, h, routes, comp);
  }

  /** The dictionary and sets the script fills. */
  class Components {
    var parent: Parents
    var edges: set<Route>
    var nodes: set<Airport>
    ghost var height: Heights
    ghost var merges: nat

    ghost predicate Shaped()
      reads this`parent, this`height, this`merges
    {
      Forest(parent, height) && |Roots(parent)| + merges == |parent|
    }

    ghost predicate Valid()
      reads this
    {
      && Shaped() && nodes == parent.Keys == Ends(edges)
      && RoutesRespected(parent, height, edges) && LinksJustified(parent, height, edges)
    }

    constructor ()
      ensures Valid() && edges == {} && nodes == {} && merges == 0
    {
      parent, edges, nodes, height, merges := map[], {}, {}, map[], 0;
      new;
      assert Roots(parent) == {};
    }

    /** parent.setdefault(x, x) */
    method SetDefault(x: Airport)
      requires Shaped()
      modifies this`parent, this`height
      ensures Shaped() && parent.Keys == old(parent.Keys) + {x}
      ensures SameRoots(old(parent), old(height), parent, height) &&
          Root(parent, height, x) == RootOr(old(parent), old(height), x)
    {
      if x !in parent {
        FreshIsForest(parent, height, x);
        parent, height := parent[x := x], height[x := 0];
      }
    }

    /** One turn of path halving: skip the grandparent's child and step up. */
    method Halve(x: Airport) returns (up: Airport)
      requires Shaped() && x in parent && parent[x] != x
      modifies this`parent
      ensures Shaped() && parent.Keys == old(parent.Keys) && up in parent && height[up] < height[x]
      ensures SameRoots(old(parent), height, parent, height) && Root(parent, height, up) == Root(parent, height, x)
    {
      ghost var p0 := parent;
      assert LinkOk(p0, height, x) && LinkOk(p0, height, p0[x]);
      HalvingIsForest(p0, height, x);
      forall y | y in p0 ensures RootKept(p0, height, Halved(p0, x), height, y) { HalvingKeepsRoots(p0, height, x, y); }
      parent := parent[x := parent[parent[x]]];
      up := parent[x];
    }

    /** find(x): terminates, returns the root, and moves nobody to another root. */
    method Find(x: Airport) returns (r: Airport)
      requires Shaped()
      modifies this`parent, this`height
      ensures Shaped() && parent.Keys == old(parent.Keys) + {x}
      ensures SameRoots(old(parent), old(height), parent, height)
      ensures r == Root(parent, height, x) == RootOr(old(parent), old(height), x)
    {
      SetDefault(x);
      ghost var keys := parent.Keys;
      var at := x;
      while parent[at] != at
        invariant Shaped() && parent.Keys == keys && at in parent
        invariant SameRoots(old(parent), old(height), parent, height)
        invariant Root(parent, height, at) == Root(parent, height, x) == RootOr(old(parent), old(height), x)
        decreases height[at]
      {
        ghost var p1, h1, was := parent, height, at;
        at := Halve(at);
        assert RootKept(p1, h1, parent, height, x) && RootKept(p1, h1, parent, height, was);
        SameRootsTransitive(old(parent), old(height), p1, h1, parent, height);
      }
      r := at;
    }

    /** union(a, b) */
    method Union(a: Airport, b: Airport)
      requires Shaped()
      modifies this`parent, this`height, this`merges
      ensures Shaped() && Merged(old(parent), old(height), parent, height, a, b)
      ensures merges == old(merges) +
          (if RootOr(old(parent), old(height), a) == RootOr(old(parent), old(height), b) then 0 else 1)
    {
      var ra, rb := FindBoth(a, b);
      ghost var p1, h1 := parent, height;
      if ra != rb { Link(ra, rb); }
      MergedThroughFinds(old(parent), old(height), p1, h1, parent, height, a, b);
    }

    method FindBoth(a: Airport, b: Airport) returns (ra: Airport, rb: Airport)
      requires Shaped()
      modifies this`parent, this`height
      ensures Shaped() && parent.Keys == old(parent.Keys) + {a, b}
      ensures SameRoots(old(parent), old(height), parent, height)
      ensures ra == Root(parent, height, a) == RootOr(old(parent), old(height), a)
      ensures rb == Root(parent, height, b) == RootOr(old(parent), old(height), b)
    {
      ra := Find(a);
      ghost var p1, h1 := parent, height;
      rb := Find(b);
      assert RootKept(p1, h1, parent, height, a);
      if b in old(parent) { assert RootKept(old(parent), old(height), p1, h1, b); }
      SameRootsTransitive(old(parent), old(height), p1, h1, parent, height);
    }

    method Link(ra: Airport, rb: Airport)
      requires Shaped() && ra in Roots(parent) && rb in Roots(parent) && ra != rb
      modifies this`parent, this`height, this`merges
      ensures Shaped() && Merged(old(parent), old(height), parent, height, ra, rb) && merges == old(merges) + 1
    {
      LinkMerges(parent, height, ra, rb);
      parent, height, merges := parent[ra := rb], Lifted(parent, height, ra, rb), merges + 1;
    }

    /** edges.add((d, a)); nodes.update((d, a)); union(d, a) */
    method AddRoute(d: Airport, a: Airport)
      requires Valid()
      modifies this
      ensures Valid() && edges == old(edges) + {(d, a)}
      ensures old(merges) <= merges <= old(merges) + 1
    {
      ghost var p0, h0 := parent, height;
      edges := edges + {(d, a)};
      nodes := nodes + {d, a};
      Union(d, a);
      EndsGrow(old(edges), d, a);
      MergedRespects(p0, h0, parent, height, old(edges), d, a);
      MergedJustified(p0, h0, parent, height, old(edges), d, a);
    }

    /** One row of the export: a route counts when both ends are present and non-empty. */
    method AddRow(row: FlightRow)
      requires Valid()
      modifies this
      ensures Valid() && edges == old(edges) + RoutesOf([row])
      ensures forall a, b :: (a, b) in edges <==> (a, b) in old(edges) || Flies(row, a, b)
      ensures old(merges) <= merges <= old(merges) + 1
    {
      RoutesOfOne(row);
      if Usable(row) { AddRoute(row.dep.value, row.arr.value); }
    }

    method ReadRows(rows: seq<FlightRow>)
      requires Valid()
      modifies this
      ensures Valid() && edges == old(edges) + RoutesOf(rows)
    {
      for i := 0 to |rows|
        invariant Valid() && edges == old(edges) + RoutesOf(rows[..i])
      {
        AddRow(rows[i]);
        RoutesOfAppend(rows[..i], rows[i]);
        assert rows[..i + 1] == rows[..i] + [rows[i]];
      }
      assert rows[..|rows|] == rows;
    }

    /** Part of the way through the tally that began in the state p0, h0. */
    ghost predicate Tallying(p0: Parents, h0: Heights, within: set<Airport>, comp: map<Airport, int>)
      reads this
    {
      && Shaped() && parent.Keys == p0.Keys && SameRoots(p0, h0, parent, height)
      && within <= p0.Keys && Tallied(p0, h0, within, comp) && comp.Keys <= Roots(p0)
    }

    /** comp[find(node)] += 1 */
    method TallyNode(node: Airport, comp: map<Airport, int>, ghost p0: Parents, ghost h0: Heights,
                     ghost within: set<Airport>) returns (next: map<Airport, int>)
      requires Tallying(p0, h0, within, comp) && node in p0 && node !in within
      modifies this`parent, this`height
      ensures Tallying(p0, h0, within + {node}, next)
    {
      ghost var p1, h1 := parent, height;
      var r := Find(node);
      SameRootsTransitive(p0, h0, p1, h1, parent, height);
      assert RootKept(p0, h0, parent, height, node);
      TallyOne(p0, h0, within, comp, node);
      next := Counters.Bump(comp, r, 1);
    }

    method TallyAll(ghost p0: Parents, ghost h0: Heights) returns (comp: map<Airport, int>)
      requires Tallying(p0, h0, {}, map[]) && p0.Keys == nodes
      modifies this`parent, this`height
      ensures Tallying(p0, h0, nodes, comp)
    {
      comp := map[];
      var todo := nodes;
      assert nodes - todo == {};
      while todo != {}
        invariant todo <= nodes && Tallying(p0, h0, nodes - todo, comp)
        decreases |todo|
      {
        var node :| node in todo;
        comp := TallyNode(node, comp, p0, h0, nodes - todo);
        OneLess(nodes, todo, node);
        todo := todo - {node};
      }
      assert nodes - todo == nodes;
    }

    ghost method TallyBegins()
      requires Valid()
      ensures Tallying(parent, height, {}, map[])
    {
      SameRootsReflexive(parent, height);
    }

    /** The tally by root, whose find calls go on rewriting the dictionary. */
    method Sizes() returns (comp: map<Airport, int>)
      requires Valid()
      modifies this`parent, this`height
      ensures Valid() && SameRoots(old(parent), old(height), parent, height)
      ensures comp.Keys == Roots(parent) && Tallied(parent, height, nodes, comp)
      ensures |comp| + merges == |nodes|
    {
      ghost var p0, h0 := parent, height;
      TallyBegins();
      comp := TallyAll(p0, h0);
      TallyDone(p0, h0, comp);
    }

    ghost method TallyDone(p0: Parents, h0: Heights, comp: map<Airport, int>)
      requires Tallying(p0, h0, nodes, comp) && p0.Keys == nodes == Ends(edges)
      requires RoutesRespected(p0, h0, edges) && LinksJustified(p0, h0, edges)
      ensures Valid() && comp.Keys == Roots(parent) && Tallied(parent, height, nodes, comp)
      ensures |comp| + merges == |nodes|
    {
      FullTally(p0, h0, comp);
      RootsTransfer(p0, h0, parent, height);
      TallyTransfers(p0, h0, parent, height, comp);
      GraphTransfers(p0, h0, parent, height, edges);
    }
  }

  /** The row names both airports, neither empty. */
  predicate Flies(row: FlightRow, a: Airport, b: Airport) {
    row == FlightRow(Some(a), Some(b)) && |a| > 0 && |b| > 0
  }

  lemma RoutesFlown(rows: seq<FlightRow>, a: Airport, b: Airport)
    ensures (a, b) in RoutesOf(rows) <==> exists i :: 0 <= i < |rows| && Flies(rows[i], a, b)
  {
    if (a, b) in RoutesOf(rows) {
      var row :| row in rows && Usable(row) && (row.dep.value, row.arr.value) == (a, b);
      var i :| 0 <= i < |rows| && rows[i] == row;
      assert Flies(rows[i], a, b);
    }
    if i :| 0 <= i < |rows| && Flies(rows[i], a, b) { assert Usable(rows[i]) && rows[i] in rows; }
  }

  lemma AllFlown(rows: seq<FlightRow>)
    ensures forall a, b :: (a, b) in RoutesOf(rows) <==> exists i :: 0 <= i < |rows| && Flies(rows[i], a, b)
  {
    hide Flies, RoutesOf;
    forall a, b ensures (a, b) in RoutesOf(rows) <==> exists i :: 0 <= i < |rows| && Flies(rows[i], a, b) {
      RoutesFlown(rows, a, b);
    }
  }

  lemma AllEnds(edges: set<Route>)
    ensures forall x :: x in Ends(edges) <==> exists e :: e in edges && (x == e.0 || x == e.1)
  {
    hide Ends;
    forall x ensures x in Ends(edges) <==> exists e :: e in edges && (x == e.0 || x == e.1) { EndsOfRoutes(edges, x); }
  }

  lemma EndsOfRoutes(edges: set<Route>, x: Airport)
    ensures x in Ends(edges) <==> exists e :: e in edges && (x == e.0 || x == e.1)
  { }

  /** The whole analysis: whatever the rows and their order, the true components of the route graph. */
  method ComponentSizes(rows: seq<FlightRow>) returns (comp: map<Airport, int>, edges: set<Route>, nodes: set<Airport>)
    ensures forall a, b :: (a, b) in edges <==> exists i :: 0 <= i < |rows| && Flies(rows[i], a, b)
    ensures forall x :: x in nodes <==> exists e :: e in edges && (x == e.0 || x == e.1)
    ensures IsComponentCount(edges, nodes, comp)
  {
    hide Flies, RoutesOf, Ends, IsComponentCount;
    var c := new Components();
    c.ReadRows(rows);
    comp := c.Sizes();
    edges, nodes := c.edges, c.nodes;
    TallyIsComponentCount(c.parent, c.height, edges, comp);
    AllFlown(rows);
    AllEnds(edges);
  }
}
