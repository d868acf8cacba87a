// The route optimizer: a directed transport graph built from sample lanes in
// both directions, routing constraints applied to a copy of it, and the
// bookkeeping around the graph library's answers (optimal path, alternatives,
// bottlenecks, distance, confidence).
//
// The graph library itself (path existence, Dijkstra, Yen's k shortest simple
// paths, betweenness centrality) is a parameter: a record of functions whose
// contracts are stated as predicates, not reimplemented.

module Routing {
  import opened Common

  datatype Edge = Edge(transitTime: real, distanceKm: real)
  datatype Link = Link(source: string, target: string, attrs: Edge)

  /** Node -> successor -> edge attributes. */
  type Graph = map<string, map<string, Edge>>

  predicate HasEdge(g: Graph, u: string, v: string)
  {
    u in g && v in g[u]
  }

  /** Every edge ends at a node of the graph. */
  ghost predicate Closed(g: Graph)
  {
    forall u, v :: u in g && v in g[u] ==> v in g
  }

  /** Every edge has a reverse edge with the same attributes. */
  ghost predicate Symmetric(g: Graph)
  {
    forall u, v :: u in g && v in g[u] ==> v in g && u in g[v] && g[v][u] == g[u][v]
  }

  /** Adds the nodes u and v if missing and sets the edge u -> v. */
  function AddEdge(g: Graph, u: string, v: string, e: Edge): Graph
  {
    var g1 := if v in g then g else g[v := map[]];
    g1[u := (if u in g1 then g1[u] else map[])[v := e]]
  }

  function AddBothWays(g: Graph, l: Link): Graph
  {
    AddEdge(AddEdge(g, l.source, l.target, l.attrs), l.target, l.source, l.attrs)
  }

  function BuildGraph(links: seq<Link>): Graph
  {
    if links == [] then map[] else AddBothWays(BuildGraph(links[..|links| - 1]), links[|links| - 1])
  }

  lemma AddBothWaysFacts(g: Graph, l: Link)
    requires Symmetric(g) && Closed(g)
    ensures var r := AddBothWays(g, l);
      Symmetric(r) && Closed(r)
      && HasEdge(r, l.source, l.target) && r[l.source][l.target] == l.attrs
      && HasEdge(r, l.target, l.source) && r[l.target][l.source] == l.attrs
      && (forall u :: u in r <==> u in g || u == l.source || u == l.target)
  {
    var s, t, e := l.source, l.target, l.attrs;
    var r := AddBothWays(g, l);
    forall u, v | u in r && v in r[u]
      ensures v in r && u in r[v] && r[v][u] == r[u][v]
    {
      if (u == s && v == t) || (u == t && v == s) {
      } else {
        assert u in g && v in g[u] && r[u][v] == g[u][v];
      }
    }
  }

  /** Lanes are inserted in both directions with identical attributes. */
  lemma {:induction false} BuildGraphSymmetric(links: seq<Link>)
    ensures Symmetric(BuildGraph(links)) && Closed(BuildGraph(links))
  {
    if links != [] {
      BuildGraphSymmetric(links[..|links| - 1]);
      AddBothWaysFacts(BuildGraph(links[..|links| - 1]), links[|links| - 1]);
    }
  }

  /** Every lane is an edge, both ways, of the built graph. */
  lemma {:induction false} BuildGraphHasLinks(links: seq<Link>)
    ensures forall i :: 0 <= i < |links| ==>
      HasEdge(BuildGraph(links), links[i].source, links[i].target)
      && HasEdge(BuildGraph(links), links[i].target, links[i].source)
  {
    if links != [] {
      var front := links[..|links| - 1];
      BuildGraphHasLinks(front);
      var g := BuildGraph(front);
      var r := BuildGraph(links);
      forall i | 0 <= i < |links|
        ensures HasEdge(r, links[i].source, links[i].target) && HasEdge(r, links[i].target, links[i].source)
      {
        if i < |links| - 1 {
          assert links[i] == front[i];
          assert HasEdge(g, front[i].source, front[i].target) && HasEdge(g, front[i].target, front[i].source);
        }
      }
    }
  }

  /** The nodes of the built graph are exactly the lane endpoints. */
  lemma {:induction false} BuildGraphNodes(links: seq<Link>)
    ensures forall u :: u in BuildGraph(links) <==>
      exists i :: 0 <= i < |links| && (u == links[i].source || u == links[i].target)
  {
    if links != [] {
      var front := links[..|links| - 1];
      BuildGraphNodes(front);
      var g := BuildGraph(front);
      var r := BuildGraph(links);
      forall u ensures u in r <==> exists i :: 0 <= i < |links| && (u == links[i].source || u == links[i].target)
      {
        if u in g {
          var i :| 0 <= i < |front| && (u == front[i].source || u == front[i].target);
          assert links[i] == front[i];
        }
        if exists i :: 0 <= i < |links| && (u == links[i].source || u == links[i].target) {
          var i :| 0 <= i < |links| && (u == links[i].source || u == links[i].target);
          if i < |links| - 1 { assert links[i] == front[i]; }
        }
      }
    }
  }

  datatype Location = Location(code: string, name: string, kind: string)

  const SampleLinks: seq<Link> := [
    Link("MTY-HUB", "SLP-HUB", Edge(4.0, 450.0)),
    Link("MTY-HUB", "CDMX-HUB", Edge(9.0, 920.0)),
    Link("SLP-HUB", "CDMX-HUB", Edge(5.0, 420.0)),
    Link("SLP-HUB", "GDL-HUB", Edge(3.5, 310.0)),
    Link("GDL-HUB", "CDMX-HUB", Edge(5.5, 540.0)),
    Link("CDMX-HUB", "PUE-WH", Edge(2.0, 130.0)),
    Link("CDMX-HUB", "VER-HUB", Edge(4.5, 400.0)),
    Link("MTY-HUB", "TOR-WH", Edge(2.5, 200.0))
  ]

  const SampleLocations: map<string, Location> := map[
    "MTY-HUB" := Location("MTY", "Monterrey Hub", "Hub"),
    "SLP-HUB" := Location("SLP", "San Luis Potosi Hub", "Hub"),
    "CDMX-HUB" := Location("CDMX", "Ciudad de Mexico Hub", "Hub"),
    "GDL-HUB" := Location("GDL", "Guadalajara Hub", "Hub"),
    "VER-HUB" := Location("VER", "Veracruz Hub", "Hub"),
    "PUE-WH" := Location("PUE", "Puebla Warehouse", "Warehouse"),
    "TOR-WH" := Location("TOR", "Torreon Warehouse", "Warehouse")
  ]

  // ---------------------------------------------------------------------
  // Constraints

  /** The values a constraints dictionary can hold. */
  datatype ConstraintValue = IdList(ids: seq<string>) | Hours(hours: Option<real>)
  type Constraints = map<string, ConstraintValue>

  function AvoidLocations(c: Constraints): seq<string>
  {
    if "avoid_locations" in c && c["avoid_locations"].IdList? then c["avoid_locations"].ids else []
  }

  /** The per-edge time limit is read under the key "max_edge_time". */
  function MaxEdgeTime(c: Constraints): Option<real>
  {
    if "max_edge_time" in c && c["max_edge_time"].Hours? then c["max_edge_time"].hours else None
  }

  /** Python truthiness of an optional number: present and non-zero. */
  predicate Truthy(o: Option<real>)
  {
    o.Some? && o.value != 0.0
  }

  /** Removes a node with all its incident edges. */
  function RemoveNode(g: Graph, n: string): Graph
  {
    map u | u in g && u != n :: g[u] - {n}
  }

  /** Removes, one by one, each listed node that is still in the graph. */
  function WithoutNodes(g: Graph, ids: seq<string>): Graph
  {
    if ids == [] then g
    else
      var h := WithoutNodes(g, ids[..|ids| - 1]);
      if ids[|ids| - 1] in h then RemoveNode(h, ids[|ids| - 1]) else h
  }

  /** Drops every edge slower than the limit; nodes stay. */
  function FilterEdges(g: Graph, limit: real): Graph
  {
    map u | u in g :: map v | v in g[u] && !(g[u][v].transitTime > limit) :: g[u][v]
  }

  function Constrained(g: Graph, c: Constraints): Graph
  {
    var h := WithoutNodes(g, AvoidLocations(c));
    var limit := MaxEdgeTime(c);
    if Truthy(limit) then FilterEdges(h, limit.value) else h
  }

  lemma {:induction false} WithoutNodesFacts(g: Graph, ids: seq<string>)
    requires Closed(g)
    ensures var h := WithoutNodes(g, ids);
      Closed(h)
      && (forall u :: u in h <==> u in g && u !in ids)
      && (forall u, v :: HasEdge(h, u, v) <==> HasEdge(g, u, v) && u !in ids && v !in ids)
      && (forall u, v :: HasEdge(h, u, v) ==> h[u][v] == g[u][v])
  {
    if ids != [] {
      var front := ids[..|ids| - 1];
      var n := ids[|ids| - 1];
      WithoutNodesFacts(g, front);
      assert forall x :: x in ids <==> x in front || x == n;
    }
  }

  /** What the constrained copy contains: the nodes not avoided, and the
      edges between them that meet the time limit when one is set. */
  lemma ConstrainedFacts(g: Graph, c: Constraints)
    requires Closed(g)
    ensures var r := Constrained(g, c);
      var avoid := AvoidLocations(c);
      var limit := MaxEdgeTime(c);
      Closed(r)
      && (forall u :: u in r <==> u in g && u !in avoid)
      && (forall u, v :: HasEdge(r, u, v) <==>
            HasEdge(g, u, v) && u !in avoid && v !in avoid
            && (Truthy(limit) ==> g[u][v].transitTime <= limit.value))
      && (forall u, v :: HasEdge(r, u, v) ==> r[u][v] == g[u][v])
  {
    WithoutNodesFacts(g, AvoidLocations(c));
  }

  /** Works on a copy: removes each avoided node still present, then filters
      edges by the limit when it is truthy. */
  method ApplyConstraints(graph: Graph, constraints: Constraints) returns (g: Graph)
    ensures g == Constrained(graph, constraints)
  {
    g := graph;
    var avoid := AvoidLocations(constraints);
    for i := 0 to |avoid|
      invariant g == WithoutNodes(graph, avoid[..i])
    {
      assert avoid[..i + 1][..i] == avoid[..i];
      if avoid[i] in g {
        g := RemoveNode(g, avoid[i]);
      }
    }
    assert avoid[..|avoid|] == avoid;
    var maxTime := MaxEdgeTime(constraints);
    if maxTime.Some? && maxTime.value != 0.0 {
      g := FilterEdges(g, maxTime.value);
    }
  }

  /** The constraints as the routing endpoints build them: the time limit is
      stored under "max_time". */
  function RouterConstraints(avoid: seq<string>, maxTimeHours: Option<real>): Constraints
  {
    map["avoid_locations" := IdList(avoid), "max_time" := Hours(maxTimeHours)]
  }

  /** The limit the endpoints send never reaches the filter: the result is
      the same as with no limit, and an edge slower than the limit survives. */
  lemma RouterMaxTimeIgnored(g: Graph, avoid: seq<string>, limit: real, u: string, v: string)
    requires Closed(g)
    requires HasEdge(g, u, v) && u !in avoid && v !in avoid && g[u][v].transitTime > limit
    ensures Constrained(g, RouterConstraints(avoid, Some(limit))) == Constrained(g, RouterConstraints(avoid, None))
    ensures HasEdge(Constrained(g, RouterConstraints(avoid, Some(limit))), u, v)
  {
    ConstrainedFacts(g, RouterConstraints(avoid, Some(limit)));
  }

  /** The constraints the endpoints evidently intend: the limit under the key
      the filter reads. */
  function IntendedRouterConstraints(avoid: seq<string>, maxTimeHours: Option<real>): Constraints
  {
    map["avoid_locations" := IdList(avoid), "max_edge_time" := Hours(maxTimeHours)]
  }

  lemma IntendedConstraintsBoundEdges(g: Graph, avoid: seq<string>, limit: real)
    requires Closed(g) && limit != 0.0
    ensures var r := Constrained(g, IntendedRouterConstraints(avoid, Some(limit)));
      forall u, v :: HasEdge(r, u, v) ==> r[u][v].transitTime <= limit && u !in avoid && v !in avoid
  {
    ConstrainedFacts(g, IntendedRouterConstraints(avoid, Some(limit)));
  }

  // ---------------------------------------------------------------------
  // Paths

  /** A path from o to d along existing edges. */
  ghost predicate IsPath(g: Graph, p: seq<string>, o: string, d: string)
  {
    |p| >= 1 && p[0] == o && p[|p| - 1] == d
    && (forall i :: 0 <= i < |p| ==> p[i] in g)
    && (forall i :: 0 <= i < |p| - 1 ==> HasEdge(g, p[i], p[i + 1]))
  }

  /** Sum of an edge attribute over consecutive pairs; a missing edge adds 0. */
  function PathSum(g: Graph, p: seq<string>, attr: Edge -> real): real
  {
    if |p| < 2 then 0.0
    else PathSum(g, p[..|p| - 1], attr)
         + (if HasEdge(g, p[|p| - 2], p[|p| - 1]) then attr(g[p[|p| - 2]][p[|p| - 1]]) else 0.0)
  }

  function Distance(e: Edge): real { e.distanceKm }
  function Time(e: Edge): real { e.transitTime }

  function MissingEdges(g: Graph, p: seq<string>): nat
  {
    if |p| < 2 then 0
    else MissingEdges(g, p[..|p| - 1]) + (if HasEdge(g, p[|p| - 2], p[|p| - 1]) then 0 else 1)
  }

  lemma {:induction false} PathSumPrepend(g: Graph, a: string, q: seq<string>, attr: Edge -> real)
    requires |q| >= 1
    ensures PathSum(g, [a] + q, attr)
         == (if HasEdge(g, a, q[0]) then attr(g[a][q[0]]) else 0.0) + PathSum(g, q, attr)
  {
    var p := [a] + q;
    if |q| >= 2 {
      PathSumPrepend(g, a, q[..|q| - 1], attr);
      assert p[..|p| - 1] == [a] + q[..|q| - 1];
    } else {
      assert p[..|p| - 1] == [a];
    }
  }

  function Reverse<T>(s: seq<T>): (r: seq<T>)
    ensures |r| == |s|
  {
    if s == [] then [] else [s[|s| - 1]] + Reverse(s[..|s| - 1])
  }

  /** On a graph whose lanes run both ways, a path and its reverse have the
      same length in every attribute. */
  lemma {:induction false} ReversePathSum(g: Graph, p: seq<string>, attr: Edge -> real)
    requires Symmetric(g)
    ensures PathSum(g, Reverse(p), attr) == PathSum(g, p, attr)
  {
    if |p| >= 2 {
      var front := p[..|p| - 1];
      var x := p[|p| - 1];
      ReversePathSum(g, front, attr);
      ReverseFirst(front);
      PathSumPrepend(g, x, Reverse(front), attr);
      assert HasEdge(g, x, front[|front| - 1]) <==> HasEdge(g, front[|front| - 1], x);
    } else if |p| == 1 {
      assert Reverse(p) == p;
    }
  }

  lemma ReverseFirst<T>(s: seq<T>)
    requires |s| >= 1
    ensures Reverse(s)[0] == s[|s| - 1]
  {
  }

  lemma {:induction false} PathHasNoMissingEdges(g: Graph, p: seq<string>, o: string, d: string)
    requires IsPath(g, p, o, d)
    ensures MissingEdges(g, p) == 0
  {
    if |p| >= 2 {
      var front := p[..|p| - 1];
      PathHasNoMissingEdges(g, front, o, front[|front| - 1]);
    }
  }

  /** Walks the path and adds the attribute of each hop that exists. */
  method SumAlong(g: Graph, path: seq<string>, attr: Edge -> real) returns (total: real)
    ensures total == PathSum(g, path, attr)
  {
    total := 0.0;
    if |path| < 2 {
      return;
    }
    var i := 0;
    while i < |path| - 1
      invariant 0 <= i <= |path| - 1
      invariant total == PathSum(g, path[..i + 1], attr)
    {
      assert path[..i + 2][..i + 1] == path[..i + 1];
      if HasEdge(g, path[i], path[i + 1]) {
        total := total + attr(g[path[i]][path[i + 1]]);
      }
      i := i + 1;
    }
    assert path[..i + 1] == path;
  }

  method TotalDistance(g: Graph, path: seq<string>) returns (total: real)
    ensures total == PathSum(g, path, Distance)
  {
    total := SumAlong(g, path, Distance);
  }

  // ---------------------------------------------------------------------
  // Confidence

  function ConfidenceScore(nodes: int, missing: nat): real
  {
    if nodes < 2 then 0.0
    else
      var hopScore := MaxReal(0.0, 1.0 - (nodes - 2) as real * 0.1);
      var edgeScore := 1.0 - 0.2 * missing as real;
      Round(MinReal(1.0, hopScore * 0.5 + edgeScore * 0.5), 2)
  }

  method CalculateConfidence(g: Graph, path: seq<string>) returns (c: real)
    ensures c == ConfidenceScore(|path|, MissingEdges(g, path))
  {
    if |path| < 2 {
      return 0.0;
    }
    var hopScore := MaxReal(0.0, 1.0 - (|path| - 2) as real * 0.1);
    var edgeScore := 1.0;
    ghost var missing := 0;
    var i := 0;
    while i < |path| - 1
      invariant 0 <= i <= |path| - 1
      invariant missing == MissingEdges(g, path[..i + 1])
      invariant edgeScore == 1.0 - 0.2 * missing as real
    {
      assert path[..i + 2][..i + 1] == path[..i + 1];
      if !HasEdge(g, path[i], path[i + 1]) {
        edgeScore := edgeScore - 0.2;
        missing := missing + 1;
      }
      i := i + 1;
    }
    assert path[..i + 1] == path;
    c := Round(MinReal(1.0, hopScore * 0.5 + edgeScore * 0.5), 2);
  }

  lemma ConfidenceAtMostOne(nodes: int, missing: nat)
    ensures ConfidenceScore(nodes, missing) <= 1.0
  {
    if nodes >= 2 {
      var hopScore := MaxReal(0.0, 1.0 - (nodes - 2) as real * 0.1);
      var edgeScore := 1.0 - 0.2 * missing as real;
      RoundMonotone(MinReal(1.0, hopScore * 0.5 + edgeScore * 0.5), 1.0, 2);
      RoundExact(100, 2);
    }
  }

  /** With every edge present the score is at least 0.5. */
  lemma ConfidenceOfCompletePath(nodes: int)
    requires nodes >= 2
    ensures 0.5 <= ConfidenceScore(nodes, 0)
  {
    var hopScore := MaxReal(0.0, 1.0 - (nodes - 2) as real * 0.1);
    RoundMonotone(0.5, MinReal(1.0, hopScore * 0.5 + 0.5), 2);
    RoundExact(50, 2);
  }

  lemma ConfidenceExamples()
    ensures ConfidenceScore(2, 0) == 1.0
    ensures ConfidenceScore(3, 0) == 0.95
  {
    RoundExact(100, 2);
    RoundExact(95, 2);
    assert MaxReal(0.0, 1.0 - (3 - 2) as real * 0.1) * 0.5 + 0.5 == 95 as real / Pow10(2) as real;
  }

  /** The score is only capped from above: a long path with many missing
      edges scores below zero. */
  lemma ConfidenceCanBeNegative()
    ensures ConfidenceScore(12, 11) < 0.0
  {
    RoundExact(-60, 2);
    assert MaxReal(0.0, 1.0 - (12 - 2) as real * 0.1) == 0.0;
    assert MinReal(1.0, 0.0 * 0.5 + (1.0 - 0.2 * 11 as real) * 0.5) == -60 as real / Pow10(2) as real;
  }

  // ---------------------------------------------------------------------
  // Alternatives and bottlenecks

  datatype Alternative = Alternative(rank: int, path: seq<string>, timeHours: real, hops: int)

  function Ranked(g: Graph, window: seq<seq<string>>, i: nat): Alternative
    requires i + 1 < |window|
  {
    Alternative(i + 2, window[i + 1], Round(PathSum(g, window[i + 1], Time), 2), |window[i + 1]| - 1)
  }

  /** paths[1:k], ranked from 2, each re-costed from its own edges. */
  function AlternativesOf(g: Graph, paths: seq<seq<string>>, k: nat): (r: seq<Alternative>)
  {
    var window := if k <= |paths| then paths[..k] else paths;
    if |window| <= 1 then [] else seq(|window| - 1, i requires 0 <= i < |window| - 1 => Ranked(g, window, i))
  }

  method FindKShortestPaths(g: Graph, paths: seq<seq<string>>, k: nat) returns (alternatives: seq<Alternative>)
    ensures alternatives == AlternativesOf(g, paths, k)
    ensures |alternatives| == (if k <= |paths| then MaxInt(k - 1, 0) else MaxInt(|paths| - 1, 0))
    ensures forall i :: 0 <= i < |alternatives| ==>
      alternatives[i].rank == i + 2 && alternatives[i].path == paths[i + 1]
      && alternatives[i].hops == |paths[i + 1]| - 1
      && alternatives[i].timeHours == Round(PathSum(g, paths[i + 1], Time), 2)
  {
    var window := if k <= |paths| then paths[..k] else paths;
    alternatives := [];
    if |window| <= 1 {
      return;
    }
    var i := 1;
    while i < |window|
      invariant 1 <= i <= |window|
      invariant |alternatives| == i - 1
      invariant forall j :: 0 <= j < i - 1 ==> alternatives[j] == Ranked(g, window, j)
    {
      var path := window[i];
      var cost := SumAlong(g, path, Time);
      alternatives := alternatives + [Alternative(i + 1, path, Round(cost, 2), |path| - 1)];
      i := i + 1;
    }
  }

  /** Selection is by position only: when the library lists the optimal path
      second (a cost tie), it reappears as the first alternative. */
  lemma AlternativeMayRepeatOptimal(g: Graph, paths: seq<seq<string>>, optimal: seq<string>)
    requires |paths| >= 2 && paths[1] == optimal
    ensures AlternativesOf(g, paths, 3)[0].path == optimal
  {
    var window := if 3 <= |paths| then paths[..3] else paths;
    assert |window| >= 2 && window[1] == optimal;
    assert AlternativesOf(g, paths, 3)[0] == Ranked(g, window, 0);
  }

  datatype RouteBottleneck = RouteBottleneck(locationId: string, code: string, name: string, centralityScore: real, severity: string)

  function Score(b: map<string, real>, n: string): real
  {
    if n in b then b[n] else 0.0
  }

  function CodeOf(locations: map<string, Location>, n: string): string
  {
    if n in locations then locations[n].code else n
  }

  function NameOf(locations: map<string, Location>, n: string): string
  {
    if n in locations then locations[n].name else "Unknown"
  }

  function KindOf(locations: map<string, Location>, n: string): string
  {
    if n in locations then locations[n].kind else "Unknown"
  }

  /** The nodes among `nodes` whose centrality exceeds 0.3, in order. */
  function BottlenecksAmong(nodes: seq<string>, b: map<string, real>, locations: map<string, Location>): seq<RouteBottleneck>
  {
    if nodes == [] then []
    else
      var n := nodes[|nodes| - 1];
      var s := Score(b, n);
      BottlenecksAmong(nodes[..|nodes| - 1], b, locations)
      + (if s > 0.3 then [RouteBottleneck(n, CodeOf(locations, n), NameOf(locations, n), Round(s, 3),
                                          if s > 0.5 then "HIGH" else "MEDIUM")] else [])
  }

  /** A reported bottleneck: a listed node above 0.3, its score rounded to
      three decimals, HIGH exactly above 0.5 and MEDIUM otherwise. */
  predicate ReportedFrom(bt: RouteBottleneck, nodes: seq<string>, b: map<string, real>)
  {
    var s := Score(b, bt.locationId);
    bt.locationId in nodes && s > 0.3 && bt.centralityScore == Round(s, 3)
    && (bt.severity == "HIGH" <==> s > 0.5) && (bt.severity == "HIGH" || bt.severity == "MEDIUM")
  }

  lemma {:induction false} BottlenecksAmongExactly(nodes: seq<string>, b: map<string, real>, locations: map<string, Location>)
    ensures forall j :: 0 <= j < |BottlenecksAmong(nodes, b, locations)| ==>
      ReportedFrom(BottlenecksAmong(nodes, b, locations)[j], nodes, b)
    ensures forall n :: n in nodes && Score(b, n) > 0.3 ==>
      exists j :: 0 <= j < |BottlenecksAmong(nodes, b, locations)| && BottlenecksAmong(nodes, b, locations)[j].locationId == n
  {
    if nodes != [] {
      var front := nodes[..|nodes| - 1];
      BottlenecksAmongExactly(front, b, locations);
      assert forall x :: x in nodes <==> x in front || x == nodes[|nodes| - 1];
      var r := BottlenecksAmong(nodes, b, locations);
      var rf := BottlenecksAmong(front, b, locations);
      var n := nodes[|nodes| - 1];
      forall j | 0 <= j < |r| ensures ReportedFrom(r[j], nodes, b) {
        if j < |rf| {
          assert r[j] == rf[j] && ReportedFrom(rf[j], front, b);
        } else {
          assert "HIGH" != "MEDIUM";
        }
      }
      forall m | m in nodes && Score(b, m) > 0.3 ensures exists j :: 0 <= j < |r| && r[j].locationId == m {
        if m in front {
          var j :| 0 <= j < |rf| && rf[j].locationId == m;
          assert r[j] == rf[j];
        } else {
          assert r[|r| - 1].locationId == m;
        }
      }
    }
  }

  /** Only interior nodes of a path of three or more nodes qualify. */
  function PathBottlenecks(path: seq<string>, b: map<string, real>, locations: map<string, Location>): seq<RouteBottleneck>
  {
    if |path| < 3 then [] else BottlenecksAmong(path[1..|path| - 1], b, locations)
  }

  // ---------------------------------------------------------------------
  // The library and the route result

  datatype Dijkstra = Dijkstra(path: seq<string>, cost: real)

  /** Answers of the graph library, as functions of the graph they run on.
      `dijkstra` yields None when the library raises "no path". */
  datatype GraphLibrary = GraphLibrary(
    hasPath: (Graph, string, string) -> bool,
    dijkstra: (Graph, string, string) -> Option<Dijkstra>,
    shortestSimplePaths: (Graph, string, string) -> seq<seq<string>>,
    betweenness: Graph -> map<string, real>)

  /** The contract of Dijkstra on one graph: a cheapest path by transit time. */
  ghost predicate SoundDijkstra(lib: GraphLibrary, g: Graph, o: string, d: string)
  {
    match lib.dijkstra(g, o, d)
    case None => true
    case Some(dj) =>
      IsPath(g, dj.path, o, d) && dj.cost == PathSum(g, dj.path, Time)
      && forall q :: IsPath(g, q, o, d) ==> dj.cost <= PathSum(g, q, Time)
  }

  datatype PathDetail = PathDetail(id: string, code: string, name: string, kind: string)

  function PathDetails(path: seq<string>, locations: map<string, Location>): (r: seq<PathDetail>)
    ensures |r| == |path|
  {
    seq(|path|, i requires 0 <= i < |path| =>
      PathDetail(path[i], CodeOf(locations, path[i]), NameOf(locations, path[i]), KindOf(locations, path[i])))
  }

  datatype RouteResult =
    | RouteError(error: string)
    | Route(optimalPath: seq<PathDetail>, totalTimeHours: real, totalDistanceKm: real, hops: int,
            algorithm: string, confidenceScore: real, alternatives: seq<Alternative>,
            bottlenecks: seq<RouteBottleneck>)

  const NoPathMessage := "No path exists between origin and destination"

  /** The outcome on the constrained graph: origin checked first, then the
      destination, then path existence. */
  function RouteOutcome(g: Graph, origin: string, destination: string, lib: GraphLibrary,
                        locations: map<string, Location>): RouteResult
  {
    if origin !in g then RouteError("Origin " + origin + " not found in network")
    else if destination !in g then RouteError("Destination " + destination + " not found in network")
    else if !lib.hasPath(g, origin, destination) then RouteError(NoPathMessage)
    else match lib.dijkstra(g, origin, destination)
      case None => RouteError(NoPathMessage)
      case Some(dj) =>
        Route(PathDetails(dj.path, locations), Round(dj.cost, 2), Round(PathSum(g, dj.path, Distance), 2),
              |dj.path| - 1, "dijkstra", ConfidenceScore(|dj.path|, MissingEdges(g, dj.path)),
              AlternativesOf(g, lib.shortestSimplePaths(g, origin, destination), 3),
              PathBottlenecks(dj.path, lib.betweenness(g), locations))
  }

  /** Error precedence, whatever the library answers. */
  lemma RouteErrorOrder(g: Graph, o: string, d: string, lib: GraphLibrary, locations: map<string, Location>)
    ensures o !in g ==> RouteOutcome(g, o, d, lib, locations) == RouteError("Origin " + o + " not found in network")
    ensures o in g && d !in g ==>
      RouteOutcome(g, o, d, lib, locations) == RouteError("Destination " + d + " not found in network")
    ensures o in g && d in g && !lib.hasPath(g, o, d) ==> RouteOutcome(g, o, d, lib, locations) == RouteError(NoPathMessage)
    ensures RouteOutcome(g, o, d, lib, locations).Route? <==>
      o in g && d in g && lib.hasPath(g, o, d) && lib.dijkstra(g, o, d).Some?
  {
  }

  /** An avoided origin is reported as missing from the network. */
  lemma AvoidedOriginRejected(g: Graph, c: Constraints, o: string, d: string, lib: GraphLibrary,
                              locations: map<string, Location>)
    requires Closed(g) && o in AvoidLocations(c)
    ensures RouteOutcome(Constrained(g, c), o, d, lib, locations) == RouteError("Origin " + o + " not found in network")
  {
    ConstrainedFacts(g, c);
  }

  /** With a sound Dijkstra answer, the route avoids every avoided location,
      runs from origin to destination with hops = nodes - 1, has no missing
      edge and a confidence in [0.5, 1]. */
  lemma SoundRoute(g: Graph, c: Constraints, o: string, d: string, lib: GraphLibrary,
                   locations: map<string, Location>)
    requires Closed(g)
    requires SoundDijkstra(lib, Constrained(g, c), o, d)
    requires RouteOutcome(Constrained(g, c), o, d, lib, locations).Route?
    ensures var r := RouteOutcome(Constrained(g, c), o, d, lib, locations);
      var p := r.optimalPath;
      r.hops == |p| - 1 && r.hops >= 0
      && p[0].id == o && p[|p| - 1].id == d
      && (forall i :: 0 <= i < |p| ==> p[i].id !in AvoidLocations(c))
      && r.confidenceScore <= 1.0
      && (o != d ==> 0.5 <= r.confidenceScore)
  {
    var h := Constrained(g, c);
    ConstrainedFacts(g, c);
    var dj := lib.dijkstra(h, o, d).value;
    PathHasNoMissingEdges(h, dj.path, o, d);
    ConfidenceAtMostOne(|dj.path|, 0);
    if o != d {
      ConfidenceOfCompletePath(|dj.path|);
    }
  }

  /** The contract of the simple-paths generator on one graph: every path it
      lists runs from origin to destination along edges of that graph. */
  ghost predicate SoundSimplePaths(lib: GraphLibrary, g: Graph, o: string, d: string)
  {
    forall p :: p in lib.shortestSimplePaths(g, o, d) ==> IsPath(g, p, o, d)
  }

  /** With a sound simple-paths answer, every alternative of a route runs
      from origin to destination in the constrained graph and avoids every
      avoided location. */
  lemma SoundAlternatives(g: Graph, c: Constraints, o: string, d: string, lib: GraphLibrary,
                          locations: map<string, Location>)
    requires Closed(g)
    requires SoundSimplePaths(lib, Constrained(g, c), o, d)
    requires RouteOutcome(Constrained(g, c), o, d, lib, locations).Route?
    ensures var r := RouteOutcome(Constrained(g, c), o, d, lib, locations);
      forall a :: a in r.alternatives ==>
        IsPath(Constrained(g, c), a.path, o, d)
        && (forall i :: 0 <= i < |a.path| ==> a.path[i] !in AvoidLocations(c))
  {
    var h := Constrained(g, c);
    ConstrainedFacts(g, c);
    var paths := lib.shortestSimplePaths(h, o, d);
    var window := if 3 <= |paths| then paths[..3] else paths;
    var alts := AlternativesOf(h, paths, 3);
    forall a | a in alts
      ensures IsPath(h, a.path, o, d) && (forall i :: 0 <= i < |a.path| ==> a.path[i] !in AvoidLocations(c))
    {
      var j :| 0 <= j < |alts| && alts[j] == a;
      assert |window| > 1;
      assert alts[j] == Ranked(h, window, j);
      assert a.path == window[j + 1];
      assert window[j + 1] in paths;
    }
  }

  // ---------------------------------------------------------------------
  // The optimizer object

  class RouteOptimizer {
    var locations: map<string, Location>

    constructor ()
      ensures locations == map[]
    {
      locations := map[];
    }

    /** Sets the location table and returns the sample network. */
    method BuildNetworkGraph() returns (g: Graph)
      modifies this
      ensures locations == SampleLocations
      ensures g == BuildGraph(SampleLinks) && Symmetric(g) && Closed(g)
    {
      g := map[];
      locations := SampleLocations;
      var links := SampleLinks;
      for i := 0 to |links|
        invariant g == BuildGraph(links[..i])
      {
        assert links[..i + 1][..i] == links[..i];
        g := AddEdge(g, links[i].source, links[i].target, links[i].attrs);
        g := AddEdge(g, links[i].target, links[i].source, links[i].attrs);
      }
      assert links[..|links|] == links;
      BuildGraphSymmetric(links);
    }

    /** Bottlenecks on the path, from betweenness on the constrained graph. */
    method DetectBottlenecks(g: Graph, path: seq<string>, lib: GraphLibrary) returns (r: seq<RouteBottleneck>)
      ensures r == PathBottlenecks(path, lib.betweenness(g), locations)
    {
      if |path| < 3 {
        return [];
      }
      var betweenness := lib.betweenness(g);
      var interior := path[1..|path| - 1];
      r := [];
      for i := 0 to |interior|
        invariant r == BottlenecksAmong(interior[..i], betweenness, locations)
      {
        assert interior[..i + 1][..i] == interior[..i];
        var node := interior[i];
        var score := Score(betweenness, node);
        if score > 0.3 {
          r := r + [RouteBottleneck(node, CodeOf(locations, node), NameOf(locations, node), Round(score, 3),
                                    if score > 0.5 then "HIGH" else "MEDIUM")];
        }
      }
      assert interior[..|interior|] == interior;
    }

    method CalculateOptimalRoute(origin: string, destination: string, constraints: Constraints, lib: GraphLibrary)
      returns (result: RouteResult)
      modifies this
      ensures locations == SampleLocations
      ensures result == RouteOutcome(Constrained(BuildGraph(SampleLinks), constraints), origin, destination,
                                     lib, SampleLocations)
    {
      var built := BuildNetworkGraph();
      var graph := ApplyConstraints(built, constraints);
      if origin !in graph {
        return RouteError("Origin " + origin + " not found in network");
      }
      if destination !in graph {
        return RouteError("Destination " + destination + " not found in network");
      }
      if !lib.hasPath(graph, origin, destination) {
        return RouteError(NoPathMessage);
      }
      var answer := lib.dijkstra(graph, origin, destination);
      if answer.None? {
        return RouteError(NoPathMessage);
      }
      var optimalPath, optimalCost := answer.value.path, answer.value.cost;
      var alternatives := FindKShortestPaths(graph, lib.shortestSimplePaths(graph, origin, destination), 3);
      var bottlenecks := DetectBottlenecks(graph, optimalPath, lib);
      var totalDistance := TotalDistance(graph, optimalPath);
      var pathDetails := PathDetails(optimalPath, locations);
      var confidence := CalculateConfidence(graph, optimalPath);
      result := Route(pathDetails, Round(optimalCost, 2), Round(totalDistance, 2), |optimalPath| - 1,
                      "dijkstra", confidence, alternatives, bottlenecks);
    }
  }
}
