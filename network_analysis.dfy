// The network analyzer: an undirected view of the transport network, the
// top-5 hub ranking by betweenness, critical paths between hubs, resilience
// after removing the top hub, and network-wide bottlenecks.
//
// Centrality, connected components, shortest paths, density and the average
// path length are answers of the graph library, passed in as functions.

module NetworkAnalysis {
  import opened Common
  import opened StableSort
  import Routing

  /** An undirected simple graph: nodes in insertion order, edges as
      unordered pairs. */
  datatype UGraph = UGraph(nodes: seq<string>, edges: set<set<string>>)

  function AddNode(nodes: seq<string>, n: string): (r: seq<string>)
    ensures forall x :: x in r <==> x in nodes || x == n
  {
    if n in nodes then nodes else nodes + [n]
  }

  function AddUndirectedEdge(g: UGraph, u: string, v: string): UGraph
  {
    UGraph(AddNode(AddNode(g.nodes, u), v), g.edges + {{u, v}})
  }

  datatype Lane = Lane(u: string, v: string, distanceKm: real, timeHours: real)

  function BuildUGraph(lanes: seq<Lane>): UGraph
  {
    if lanes == [] then UGraph([], {})
    else AddUndirectedEdge(BuildUGraph(lanes[..|lanes| - 1]), lanes[|lanes| - 1].u, lanes[|lanes| - 1].v)
  }

  /** Nodes are distinct and every edge joins nodes of the graph. */
  ghost predicate WellFormed(g: UGraph)
  {
    (forall i, j :: 0 <= i < j < |g.nodes| ==> g.nodes[i] != g.nodes[j])
    && (forall e, x :: e in g.edges && x in e ==> x in g.nodes)
  }

  lemma {:induction false} BuildUGraphWellFormed(lanes: seq<Lane>)
    ensures WellFormed(BuildUGraph(lanes))
    ensures forall x :: x in BuildUGraph(lanes).nodes <==>
      exists i :: 0 <= i < |lanes| && (x == lanes[i].u || x == lanes[i].v)
  {
    if lanes != [] {
      var front := lanes[..|lanes| - 1];
      var l := lanes[|lanes| - 1];
      BuildUGraphWellFormed(front);
      var g := BuildUGraph(front);
      var r := BuildUGraph(lanes);
      forall x ensures x in r.nodes <==> exists i :: 0 <= i < |lanes| && (x == lanes[i].u || x == lanes[i].v)
      {
        if x in g.nodes {
          var i :| 0 <= i < |front| && (x == front[i].u || x == front[i].v);
          assert lanes[i] == front[i];
        }
        if exists i :: 0 <= i < |lanes| && (x == lanes[i].u || x == lanes[i].v) {
          var i :| 0 <= i < |lanes| && (x == lanes[i].u || x == lanes[i].v);
          if i < |lanes| - 1 { assert lanes[i] == front[i]; }
        }
      }
    }
  }

  /** The node and every edge touching it go; the order of the others stays. */
  function RemoveNode(g: UGraph, n: string): (r: UGraph)
    ensures |r.nodes| <= |g.nodes|
  {
    UGraph(Without(g.nodes, n), set e | e in g.edges && n !in e)
  }

  function Without(s: seq<string>, n: string): (r: seq<string>)
    ensures |r| <= |s|
  {
    if s == [] then []
    else Without(s[..|s| - 1], n) + (if s[|s| - 1] == n then [] else [s[|s| - 1]])
  }

  lemma {:induction false} WithoutFacts(s: seq<string>, n: string)
    requires forall i, j :: 0 <= i < j < |s| ==> s[i] != s[j]
    ensures forall x :: x in Without(s, n) <==> x in s && x != n
    ensures forall i, j :: 0 <= i < j < |Without(s, n)| ==> Without(s, n)[i] != Without(s, n)[j]
  {
    if s != [] {
      var front := s[..|s| - 1];
      WithoutFacts(front, n);
      assert forall x :: x in s <==> x in front || x == s[|s| - 1];
      assert s[|s| - 1] !in front by {
        forall i | 0 <= i < |front| ensures front[i] != s[|s| - 1] {
          assert front[i] == s[i];
        }
      }
    }
  }

  /** Removal happens on a copy: the remainder keeps every other node and
      edge and stays well formed. */
  lemma RemoveNodeFacts(g: UGraph, n: string)
    requires WellFormed(g)
    ensures var r := RemoveNode(g, n);
      WellFormed(r)
      && (forall x :: x in r.nodes <==> x in g.nodes && x != n)
      && (forall e :: e in r.edges <==> e in g.edges && n !in e)
  {
    WithoutFacts(g.nodes, n);
  }

  const SampleLanes: seq<Lane> := [
    Lane("MTY-HUB", "SLP-HUB", 450.0, 4.0),
    Lane("MTY-HUB", "TOR-WH", 200.0, 2.5),
    Lane("SLP-HUB", "CDMX-HUB", 420.0, 5.0),
    Lane("SLP-HUB", "GDL-HUB", 310.0, 3.5),
    Lane("GDL-HUB", "CDMX-HUB", 540.0, 5.5),
    Lane("CDMX-HUB", "PUE-WH", 130.0, 2.0),
    Lane("CDMX-HUB", "VER-HUB", 400.0, 4.5),
    Lane("CDMX-HUB", "QRO-WH", 220.0, 2.5)
  ]

  const SampleLocations: map<string, Routing.Location> := map[
    "MTY-HUB" := Routing.Location("MTY", "Monterrey Hub", "Hub"),
    "SLP-HUB" := Routing.Location("SLP", "San Luis Potosi Hub", "Hub"),
    "CDMX-HUB" := Routing.Location("CDMX", "Mexico City Hub", "Hub"),
    "GDL-HUB" := Routing.Location("GDL", "Guadalajara Hub", "Hub"),
    "VER-HUB" := Routing.Location("VER", "Veracruz Hub", "Hub"),
    "PUE-WH" := Routing.Location("PUE", "Puebla Warehouse", "Warehouse"),
    "TOR-WH" := Routing.Location("TOR", "Torreon Warehouse", "Warehouse"),
    "QRO-WH" := Routing.Location("QRO", "Queretaro Warehouse", "Warehouse")
  ]

  /** Answers of the graph library. `shortestPath` yields None when the
      library raises "no path"; `averagePathLength` yields None when it
      raises (a disconnected graph). Components are listed one sequence of
      nodes per component. */
  datatype NetworkLibrary = NetworkLibrary(
    betweenness: UGraph -> map<string, real>,
    closeness: UGraph -> map<string, real>,
    density: UGraph -> real,
    components: UGraph -> seq<seq<string>>,
    shortestPath: (UGraph, string, string) -> Option<seq<string>>,
    shortestPathLength: (UGraph, string, string) -> int,
    averagePathLength: UGraph -> Option<real>)

  /** The components partition the nodes and none is empty. */
  ghost predicate SoundComponents(g: UGraph, comps: seq<seq<string>>)
  {
    (forall k :: 0 <= k < |comps| ==> |comps[k]| > 0)
    && (forall x :: x in g.nodes <==> exists k :: 0 <= k < |comps| && x in comps[k])
  }

  // ---------------------------------------------------------------------
  // Critical hubs

  type Scored = (string, real)

  function ScoreOf(p: Scored): real { p.1 }

  /** The betweenness map as a list of items, in node order. */
  function ScoreItems(nodes: seq<string>, b: map<string, real>): seq<Scored>
  {
    seq(|nodes|, i requires 0 <= i < |nodes| => (nodes[i], Routing.Score(b, nodes[i])))
  }

  /** The five highest-scoring items, stably sorted by score. */
  function TopHubs(items: seq<Scored>): seq<Scored>
  {
    PyTake(SortDesc(items, ScoreOf), 5)
  }

  /** At most five hubs, drawn from the items, in non-increasing order; no
      item left out outranks one taken; equal scores keep node order. */
  lemma TopHubsFacts(items: seq<Scored>, k: real)
    ensures var r := TopHubs(items);
      |r| == (if |items| < 5 then |items| else 5)
      && SortedDesc(r, ScoreOf)
      && (forall i :: 0 <= i < |r| ==> r[i] in items)
      && (forall i, j :: 0 <= i < |r| <= j < |items| ==> ScoreOf(r[i]) >= ScoreOf(SortDesc(items, ScoreOf)[j]))
      && WithKey(SortDesc(items, ScoreOf), ScoreOf, k) == WithKey(items, ScoreOf, k)
  {
    var s := SortDesc(items, ScoreOf);
    SortDescIsSortedPermutation(items, ScoreOf);
    SortDescIsStable(items, ScoreOf, k);
    var n := if |items| < 5 then |items| else 5;
    PrefixSortedDesc(s, n, ScoreOf);
    TopIsLargest(items, n, ScoreOf);
    forall i | 0 <= i < n ensures s[i] in items {
      assert s[i] in multiset(s);
    }
  }

  datatype HubEntry = HubEntry(locationId: string, code: string, name: string, centralityScore: real, closeness: real)

  function HubEntries(hubs: seq<Scored>, closeness: map<string, real>, locations: map<string, Routing.Location>): (r: seq<HubEntry>)
    ensures |r| == |hubs|
  {
    seq(|hubs|, i requires 0 <= i < |hubs| =>
      HubEntry(hubs[i].0, Routing.CodeOf(locations, hubs[i].0), Routing.NameOf(locations, hubs[i].0),
               Round(hubs[i].1, 4), Round(Routing.Score(closeness, hubs[i].0), 4)))
  }

  // ---------------------------------------------------------------------
  // Critical paths

  /** The nodes whose identifier contains "HUB", in node order. */
  function HubNodes(nodes: seq<string>): (r: seq<string>)
    ensures forall x :: x in r <==> x in nodes && Contains(x, "HUB")
    ensures |r| <= |nodes|
  {
    if nodes == [] then []
    else HubNodes(nodes[..|nodes| - 1]) + (if Contains(nodes[|nodes| - 1], "HUB") then [nodes[|nodes| - 1]] else [])
  }

  datatype CriticalPath = CriticalPath(origin: string, destination: string, path: seq<string>, hops: int, distance: int)

  /** The entry reported for the pair (s, t), if the library finds a path. */
  predicate EntryFor(g: UGraph, lib: NetworkLibrary, e: CriticalPath, s: string, t: string)
  {
    lib.shortestPath(g, s, t) == Some(e.path) && e.origin == s && e.destination == t
    && e.hops == |e.path| - 1 && e.distance == lib.shortestPathLength(g, s, t)
  }

  function PairEntry(g: UGraph, lib: NetworkLibrary, s: string, t: string): seq<CriticalPath>
  {
    match lib.shortestPath(g, s, t)
    case None => []
    case Some(p) => [CriticalPath(s, t, p, |p| - 1, lib.shortestPathLength(g, s, t))]
  }

  /** Entries from one source to each of the targets, in order. */
  function Row(g: UGraph, lib: NetworkLibrary, s: string, targets: seq<string>): seq<CriticalPath>
  {
    if targets == [] then []
    else Row(g, lib, s, targets[..|targets| - 1]) + PairEntry(g, lib, s, targets[|targets| - 1])
  }

  /** Entries for the sources hubs[..n], each paired with the hubs after it. */
  function Grid(g: UGraph, lib: NetworkLibrary, hubs: seq<string>, n: nat): seq<CriticalPath>
    requires n <= |hubs|
  {
    if n == 0 then []
    else Grid(g, lib, hubs, n - 1) + Row(g, lib, hubs[n - 1], hubs[n..])
  }

  function CriticalPathsOf(g: UGraph, lib: NetworkLibrary): seq<CriticalPath>
  {
    var hubs := HubNodes(g.nodes);
    PyTake(Grid(g, lib, hubs, |hubs|), 10)
  }

  lemma {:induction false} RowSound(g: UGraph, lib: NetworkLibrary, s: string, targets: seq<string>)
    ensures forall e :: e in Row(g, lib, s, targets) ==> exists t :: t in targets && EntryFor(g, lib, e, s, t)
  {
    if targets != [] {
      var front := targets[..|targets| - 1];
      var t := targets[|targets| - 1];
      RowSound(g, lib, s, front);
      var pe := PairEntry(g, lib, s, t);
      assert Row(g, lib, s, targets) == Row(g, lib, s, front) + pe;
      assert forall x :: x in front ==> x in targets;
      if pe != [] {
        assert pe == [pe[0]] && EntryFor(g, lib, pe[0], s, t);
      }
    } else {
      assert Row(g, lib, s, targets) == [];
    }
  }

  lemma {:induction false} RowComplete(g: UGraph, lib: NetworkLibrary, s: string, targets: seq<string>)
    ensures forall t :: t in targets && lib.shortestPath(g, s, t).Some? ==>
      exists e :: e in Row(g, lib, s, targets) && EntryFor(g, lib, e, s, t)
  {
    if targets != [] {
      var front := targets[..|targets| - 1];
      var last := targets[|targets| - 1];
      RowComplete(g, lib, s, front);
      var r := Row(g, lib, s, targets);
      assert r == Row(g, lib, s, front) + PairEntry(g, lib, s, last);
      assert forall x :: x in targets ==> x in front || x == last;
      if lib.shortestPath(g, s, last).Some? {
        assert EntryFor(g, lib, r[|r| - 1], s, last);
      }
    }
  }

  /** Before truncation every entry answers a pair of hubs i < j ... */
  lemma {:induction false} GridSound(g: UGraph, lib: NetworkLibrary, hubs: seq<string>, n: nat)
    requires n <= |hubs|
    ensures forall e :: e in Grid(g, lib, hubs, n) ==>
      exists i, j :: 0 <= i < j < |hubs| && i < n && EntryFor(g, lib, e, hubs[i], hubs[j])
  {
    if n > 0 {
      GridSound(g, lib, hubs, n - 1);
      var targets := hubs[n..];
      RowSound(g, lib, hubs[n - 1], targets);
      assert Grid(g, lib, hubs, n) == Grid(g, lib, hubs, n - 1) + Row(g, lib, hubs[n - 1], targets);
      var row := Row(g, lib, hubs[n - 1], targets);
      forall e | e in row
        ensures exists i, j :: 0 <= i < j < |hubs| && i < n && EntryFor(g, lib, e, hubs[i], hubs[j])
      {
        var t :| t in targets && EntryFor(g, lib, e, hubs[n - 1], t);
        var m :| 0 <= m < |targets| && targets[m] == t;
        assert hubs[n + m] == t;
        assert EntryFor(g, lib, e, hubs[n - 1], hubs[n + m]);
      }
    } else {
      assert Grid(g, lib, hubs, n) == [];
    }
  }

  /** ... and every pair of hubs i < j the library connects has an entry. */
  lemma {:induction false} GridComplete(g: UGraph, lib: NetworkLibrary, hubs: seq<string>, n: nat)
    requires n <= |hubs|
    ensures forall i, j :: 0 <= i < j < |hubs| && i < n && lib.shortestPath(g, hubs[i], hubs[j]).Some? ==>
      exists e :: e in Grid(g, lib, hubs, n) && EntryFor(g, lib, e, hubs[i], hubs[j])
  {
    if n > 0 {
      GridComplete(g, lib, hubs, n - 1);
      var targets := hubs[n..];
      RowComplete(g, lib, hubs[n - 1], targets);
      var r := Grid(g, lib, hubs, n);
      assert r == Grid(g, lib, hubs, n - 1) + Row(g, lib, hubs[n - 1], targets);
      forall i, j | 0 <= i < j < |hubs| && i < n && lib.shortestPath(g, hubs[i], hubs[j]).Some?
        ensures exists e :: e in r && EntryFor(g, lib, e, hubs[i], hubs[j])
      {
        if i == n - 1 {
          assert hubs[j] == targets[j - n];
          assert hubs[j] in targets;
        }
      }
    }
  }

  /** The reported list is the first ten entries of that list. */
  lemma CriticalPathsFacts(g: UGraph, lib: NetworkLibrary)
    ensures var hubs := HubNodes(g.nodes);
      var all := Grid(g, lib, hubs, |hubs|);
      var r := CriticalPathsOf(g, lib);
      |r| <= 10 && r == all[..|r|]
      && (|all| >= 10 ==> |r| == 10)
      && (forall e :: e in r ==> exists i, j :: 0 <= i < j < |hubs| && EntryFor(g, lib, e, hubs[i], hubs[j]))
  {
    var hubs := HubNodes(g.nodes);
    var all := Grid(g, lib, hubs, |hubs|);
    GridSound(g, lib, hubs, |hubs|);
    var r := CriticalPathsOf(g, lib);
    assert forall e :: e in r ==> e in all;
  }

  // ---------------------------------------------------------------------
  // Resilience

  datatype Resilience =
    | Unable
    | NullGraph
    | Analysis(mostCriticalId: string, mostCriticalName: string, isConnected: bool,
               componentsAfterRemoval: int, isolatedLocations: seq<string>, resilienceScore: real)

  /** The members of every component with fewer than three nodes, in order. */
  function Isolated(comps: seq<seq<string>>): seq<string>
  {
    if comps == [] then []
    else Isolated(comps[..|comps| - 1]) + (if |comps[|comps| - 1]| < 3 then comps[|comps| - 1] else [])
  }

  lemma {:induction false} IsolatedExactly(comps: seq<seq<string>>)
    ensures forall x :: x in Isolated(comps) <==> exists k :: 0 <= k < |comps| && |comps[k]| < 3 && x in comps[k]
  {
    if comps != [] {
      var front := comps[..|comps| - 1];
      IsolatedExactly(front);
      forall x ensures x in Isolated(comps) <==> exists k :: 0 <= k < |comps| && |comps[k]| < 3 && x in comps[k]
      {
        if exists k :: 0 <= k < |comps| && |comps[k]| < 3 && x in comps[k] {
          var k :| 0 <= k < |comps| && |comps[k]| < 3 && x in comps[k];
          if k < |front| { assert comps[k] == front[k]; }
        }
        if x in Isolated(front) {
          var k :| 0 <= k < |front| && |front[k]| < 3 && x in front[k];
          assert comps[k] == front[k];
        }
      }
    }
  }

  /** Removes the top hub from a copy of the graph and reads the components
      of what remains. The library raises on an empty remainder; a sound
      component answer is empty exactly then. */
  function ResilienceOf(g: UGraph, hubs: seq<Scored>, lib: NetworkLibrary,
                        locations: map<string, Routing.Location>): Resilience
  {
    if hubs == [] then Unable
    else
      var top := hubs[0].0;
      var rest := RemoveNode(g, top);
      var comps := lib.components(rest);
      if rest.nodes == [] || comps == [] then NullGraph
      else
        var connected := |comps| == 1;
        Analysis(top, Routing.NameOf(locations, top), connected, |comps|,
                 if connected then [] else Isolated(comps),
                 if connected then 1.0 else 1.0 / |comps| as real)
  }

  /** The score lies in (0, 1]: 1 when the remainder stays connected (and
      nothing is isolated), otherwise one over the component count. */
  lemma ResilienceScoreRange(g: UGraph, hubs: seq<Scored>, lib: NetworkLibrary,
                             locations: map<string, Routing.Location>)
    ensures var r := ResilienceOf(g, hubs, lib, locations);
      (r.Unable? <==> hubs == [])
      && (r.Analysis? ==>
            0.0 < r.resilienceScore <= 1.0
            && r.mostCriticalId == hubs[0].0
            && (r.isConnected <==> r.resilienceScore == 1.0)
            && (r.isConnected ==> r.isolatedLocations == [] && r.componentsAfterRemoval == 1)
            && (!r.isConnected ==>
                  r.componentsAfterRemoval >= 2 && r.resilienceScore == 1.0 / r.componentsAfterRemoval as real))
  {
    var r := ResilienceOf(g, hubs, lib, locations);
    if r.Analysis? && !r.isConnected {
      ReciprocalBelowOne(r.componentsAfterRemoval as real);
    }
  }

  lemma ReciprocalBelowOne(c: real)
    requires c >= 2.0
    ensures 0.0 < 1.0 / c < 1.0
  {
    assert (1.0 / c) * c == 1.0;
  }

  /** With a sound component answer the null-graph case is exactly an empty
      remainder, and the isolated list names nodes of small components. */
  lemma ResilienceWithSoundComponents(g: UGraph, hubs: seq<Scored>, lib: NetworkLibrary,
                                      locations: map<string, Routing.Location>)
    requires hubs != [] && WellFormed(g)
    requires SoundComponents(RemoveNode(g, hubs[0].0), lib.components(RemoveNode(g, hubs[0].0)))
    ensures var r := ResilienceOf(g, hubs, lib, locations);
      var comps := lib.components(RemoveNode(g, hubs[0].0));
      (r.NullGraph? <==> forall x :: x in g.nodes ==> x == hubs[0].0)
      && (r.Analysis? ==> forall x :: x in r.isolatedLocations ==>
            x in g.nodes && x != hubs[0].0 && exists k :: 0 <= k < |comps| && |comps[k]| < 3 && x in comps[k])
  {
    var top := hubs[0].0;
    var rest := RemoveNode(g, top);
    var comps := lib.components(rest);
    RemoveNodeFacts(g, top);
    IsolatedExactly(comps);
    if rest.nodes != [] {
      assert rest.nodes[0] in rest.nodes;
    }
    if comps != [] {
      assert comps[0][0] in comps[0];
    }
  }

  // ---------------------------------------------------------------------
  // Bottlenecks

  datatype NetBottleneck = NetBottleneck(locationId: string, code: string, name: string, centrality: real, severity: string)

  function Centrality(bt: NetBottleneck): real { bt.centrality }

  /** The items above 0.15, in item order. */
  function Over(items: seq<Scored>, locations: map<string, Routing.Location>): seq<NetBottleneck>
  {
    if items == [] then []
    else
      var p := items[|items| - 1];
      Over(items[..|items| - 1], locations)
      + (if p.1 > 0.15 then [NetBottleneck(p.0, Routing.CodeOf(locations, p.0), Routing.NameOf(locations, p.0),
                                           Round(p.1, 4), if p.1 > 0.3 then "HIGH" else "MEDIUM")] else [])
  }

  predicate ReportedFor(bt: NetBottleneck, p: Scored)
  {
    bt.locationId == p.0 && p.1 > 0.15 && bt.centrality == Round(p.1, 4)
    && (bt.severity == "HIGH" <==> p.1 > 0.3) && (bt.severity == "HIGH" || bt.severity == "MEDIUM")
  }

  lemma {:induction false} OverExactly(items: seq<Scored>, locations: map<string, Routing.Location>)
    ensures forall bt :: bt in Over(items, locations) ==> exists p :: p in items && ReportedFor(bt, p)
    ensures forall p :: p in items && p.1 > 0.15 ==> exists bt :: bt in Over(items, locations) && ReportedFor(bt, p)
  {
    if items != [] {
      var front := items[..|items| - 1];
      var p := items[|items| - 1];
      OverExactly(front, locations);
      var r := Over(items, locations);
      var rf := Over(front, locations);
      assert forall x :: x in items <==> x in front || x == p;
      assert "HIGH" != "MEDIUM";
      if p.1 > 0.15 {
        assert r == rf + [r[|r| - 1]] && ReportedFor(r[|r| - 1], p);
      } else {
        assert r == rf;
      }
    } else {
      assert Over(items, locations) == [];
    }
  }

  function NetBottlenecks(items: seq<Scored>, locations: map<string, Routing.Location>): seq<NetBottleneck>
  {
    SortDesc(Over(items, locations), Centrality)
  }

  /** Exactly the items above 0.15 are reported, HIGH exactly above 0.3,
      ordered by rounded centrality, highest first. */
  lemma NetBottlenecksFacts(items: seq<Scored>, locations: map<string, Routing.Location>)
    ensures var r := NetBottlenecks(items, locations);
      SortedDesc(r, Centrality)
      && (forall bt :: bt in r ==> exists p :: p in items && ReportedFor(bt, p))
      && (forall p :: p in items && p.1 > 0.15 ==> exists bt :: bt in r && ReportedFor(bt, p))
  {
    var o := Over(items, locations);
    SortDescIsSortedPermutation(o, Centrality);
    OverExactly(items, locations);
    SameElements(o, NetBottlenecks(items, locations));
  }

  lemma SameElements<T>(a: seq<T>, b: seq<T>)
    requires multiset(a) == multiset(b)
    ensures forall x :: x in a <==> x in b
  {
    forall x ensures x in a <==> x in b {
      assert x in a <==> x in multiset(a);
      assert x in b <==> x in multiset(b);
    }
  }

  // ---------------------------------------------------------------------
  // The analysis

  datatype Report = Report(totalNodes: int, totalEdges: int, networkDensity: real, averagePathLength: real,
                           criticalHubs: seq<HubEntry>, criticalPaths: seq<CriticalPath>,
                           resilience: Resilience, bottlenecks: seq<NetBottleneck>)

  /** networkx raises on a disconnected graph; the report then shows 0. */
  function AveragePath(answer: Option<real>): real
  {
    match answer
    case None => 0.0
    case Some(v) => v
  }

  function ReportOf(g: UGraph, lib: NetworkLibrary, locations: map<string, Routing.Location>): Report
  {
    var items := ScoreItems(g.nodes, lib.betweenness(g));
    var hubs := TopHubs(items);
    Report(|g.nodes|, |g.edges|, Round(lib.density(g), 4), Round(AveragePath(lib.averagePathLength(g)), 2),
           HubEntries(hubs, lib.closeness(g), locations), CriticalPathsOf(g, lib),
           ResilienceOf(g, hubs, lib, locations), NetBottlenecks(items, locations))
  }

  class NetworkAnalyzer {
    var locations: map<string, Routing.Location>

    constructor ()
      ensures locations == map[]
    {
      locations := map[];
    }

    method BuildNetworkGraph() returns (g: UGraph)
      modifies this
      ensures locations == SampleLocations
      ensures g == BuildUGraph(SampleLanes) && WellFormed(g)
    {
      locations := SampleLocations;
      var lanes := SampleLanes;
      g := UGraph([], {});
      for i := 0 to |lanes|
        invariant g == BuildUGraph(lanes[..i])
      {
        assert lanes[..i + 1][..i] == lanes[..i];
        g := AddUndirectedEdge(g, lanes[i].u, lanes[i].v);
      }
      assert lanes[..|lanes|] == lanes;
      BuildUGraphWellFormed(lanes);
    }

    /** Every pair of hubs i < j, in node order, keeping the first ten. */
    method FindCriticalPaths(g: UGraph, lib: NetworkLibrary) returns (r: seq<CriticalPath>)
      ensures r == CriticalPathsOf(g, lib)
    {
      var hubs := HubNodes(g.nodes);
      var acc: seq<CriticalPath> := [];
      for i := 0 to |hubs|
        invariant acc == Grid(g, lib, hubs, i)
      {
        var source := hubs[i];
        var targets := hubs[i + 1..];
        for j := 0 to |targets|
          invariant acc == Grid(g, lib, hubs, i) + Row(g, lib, source, targets[..j])
        {
          assert targets[..j + 1][..j] == targets[..j];
          var path := lib.shortestPath(g, source, targets[j]);
          if path.Some? {
            var length := lib.shortestPathLength(g, source, targets[j]);
            acc := acc + [CriticalPath(source, targets[j], path.value, |path.value| - 1, length)];
          }
        }
        assert targets[..|targets|] == targets;
      }
      r := PyTake(acc, 10);
    }

    method AnalyzeResilience(g: UGraph, hubs: seq<Scored>, lib: NetworkLibrary) returns (r: Resilience)
      ensures r == ResilienceOf(g, hubs, lib, locations)
    {
      if hubs == [] {
        return Unable;
      }
      var top := hubs[0].0;
      var test := RemoveNode(g, top);
      var comps := lib.components(test);
      if test.nodes == [] || comps == [] {
        return NullGraph;
      }
      var connected := |comps| == 1;
      var isolated: seq<string> := [];
      if !connected {
        for k := 0 to |comps|
          invariant isolated == Isolated(comps[..k])
        {
          assert comps[..k + 1][..k] == comps[..k];
          if |comps[k]| < 3 {
            isolated := isolated + comps[k];
          }
        }
        assert comps[..|comps|] == comps;
      }
      r := Analysis(top, Routing.NameOf(locations, top), connected, |comps|, isolated,
                    if connected then 1.0 else 1.0 / |comps| as real);
    }

    method DetectBottlenecks(items: seq<Scored>) returns (r: seq<NetBottleneck>)
      ensures r == NetBottlenecks(items, locations)
    {
      var found: seq<NetBottleneck> := [];
      for i := 0 to |items|
        invariant found == Over(items[..i], locations)
      {
        assert items[..i + 1][..i] == items[..i];
        var node, score := items[i].0, items[i].1;
        if score > 0.15 {
          found := found + [NetBottleneck(node, Routing.CodeOf(locations, node), Routing.NameOf(locations, node),
                                          Round(score, 4), if score > 0.3 then "HIGH" else "MEDIUM")];
        }
      }
      assert items[..|items|] == items;
      r := SortDesc(found, Centrality);
    }

    method AnalyzeNetwork(lib: NetworkLibrary) returns (report: Report)
      modifies this
      ensures locations == SampleLocations
      ensures report == ReportOf(BuildUGraph(SampleLanes), lib, SampleLocations)
    {
      var graph := BuildNetworkGraph();
      var betweenness := lib.betweenness(graph);
      var closeness := lib.closeness(graph);
      var items := ScoreItems(graph.nodes, betweenness);
      var criticalHubs := PyTake(SortDesc(items, ScoreOf), 5);
      var criticalPaths := FindCriticalPaths(graph, lib);
      var resilience := AnalyzeResilience(graph, criticalHubs, lib);
      var bottlenecks := DetectBottlenecks(items);
      var avgPath := AveragePath(lib.averagePathLength(graph));
      report := Report(|graph.nodes|, |graph.edges|, Round(lib.density(graph), 4), Round(avgPath, 2),
                       HubEntries(criticalHubs, closeness, locations), criticalPaths, resilience, bottlenecks);
    }
  }
}
