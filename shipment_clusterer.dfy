// Shipment clustering: once the clustering algorithm has labelled every
// pending shipment, each cluster is summarised with its nearest hub, its
// load, the truck class that carries it and the distance consolidation
// saves. The labels, and the square root used for distances, are inputs.

module ShipmentClustering {
  import opened Common

  // ---------------------------------------------------------------------
  // Truck class

  datatype TruckClass = Van | LightTruck | MediumTruck | HeavyTruck

  function TruckClassName(t: TruckClass): string
  {
    match t
    case Van => "Van"
    case LightTruck => "Light Truck"
    case MediumTruck => "Medium Truck"
    case HeavyTruck => "Heavy Truck"
  }

  /** Van 0 up to heavy truck 3. */
  function Size(t: TruckClass): nat
  {
    match t
    case Van => 0
    case LightTruck => 1
    case MediumTruck => 2
    case HeavyTruck => 3
  }

  /** The smallest class whose weight and volume limits both exceed the load. */
  function RecommendTruck(weightKg: real, volumeM3: real): TruckClass
  {
    if weightKg < 500.0 && volumeM3 < 5.0 then Van
    else if weightKg < 2000.0 && volumeM3 < 20.0 then LightTruck
    else if weightKg < 5000.0 && volumeM3 < 40.0 then MediumTruck
    else HeavyTruck
  }

  /** A class is chosen exactly when the load is under its limits and not
      under those of the class below. */
  lemma RecommendTruckExactly(w: real, v: real)
    ensures RecommendTruck(w, v) == Van <==> w < 500.0 && v < 5.0
    ensures RecommendTruck(w, v) == LightTruck <==> !(w < 500.0 && v < 5.0) && w < 2000.0 && v < 20.0
    ensures RecommendTruck(w, v) == HeavyTruck <==> w >= 5000.0 || v >= 40.0
  {
  }

  /** A heavier or bulkier load never gets a smaller class. */
  lemma RecommendTruckMonotone(w1: real, v1: real, w2: real, v2: real)
    requires w1 <= w2 && v1 <= v2
    ensures Size(RecommendTruck(w1, v1)) <= Size(RecommendTruck(w2, v2))
  {
  }

  // ---------------------------------------------------------------------
  // Nearest hub

  datatype Hub = Hub(code: string, name: string, lat: real, lon: real)

  const Hubs: seq<Hub> := [
    Hub("MTY", "Monterrey Hub", 25.68, -100.32),
    Hub("GDL", "Guadalajara Hub", 20.67, -103.35),
    Hub("CDMX", "Mexico City Hub", 19.43, -99.13)]

  /** Squared distance in degrees. */
  function SquaredDistance(h: Hub, lat: real, lon: real): real
  {
    (h.lat - lat) * (h.lat - lat) + (h.lon - lon) * (h.lon - lon)
  }

  /** Position of the first least value. */
  function FirstMin(ds: seq<real>): (k: nat)
    requires ds != []
    ensures k < |ds|
  {
    if |ds| == 1 then 0
    else
      var k := FirstMin(ds[..|ds| - 1]);
      if ds[|ds| - 1] < ds[k] then |ds| - 1 else k
  }

  /** FirstMin is a least value and everything before it is strictly
      larger. */
  lemma {:induction false} FirstMinIsFirstLeast(ds: seq<real>)
    requires ds != []
    ensures forall j :: 0 <= j < |ds| ==> ds[FirstMin(ds)] <= ds[j]
    ensures forall j :: 0 <= j < FirstMin(ds) ==> ds[j] > ds[FirstMin(ds)]
  {
    if |ds| > 1 {
      var front := ds[..|ds| - 1];
      FirstMinIsFirstLeast(front);
      assert forall j :: 0 <= j < |front| ==> front[j] == ds[j];
    }
  }

  /** Distances from every hub to a point under the given square root. */
  function HubDistances(hubs: seq<Hub>, lat: real, lon: real, sqrt: real -> real): (ds: seq<real>)
    ensures |ds| == |hubs|
  {
    seq(|hubs|, i requires 0 <= i < |hubs| => sqrt(SquaredDistance(hubs[i], lat, lon)))
  }

  datatype NearestHub = NearestHub(code: string, name: string, distanceKm: real)

  /** The first closest hub, with its distance at 111 km per degree. */
  function NearestHubOf(hubs: seq<Hub>, lat: real, lon: real, sqrt: real -> real): NearestHub
    requires hubs != []
  {
    var ds := HubDistances(hubs, lat, lon, sqrt);
    var k := FirstMin(ds);
    NearestHub(hubs[k].code, hubs[k].name, Round(ds[k] * 111.0, 1))
  }

  method FindNearestHub(hubs: seq<Hub>, lat: real, lon: real, sqrt: real -> real) returns (r: NearestHub)
    requires hubs != []
    ensures r == NearestHubOf(hubs, lat, lon, sqrt)
  {
    ghost var ds := HubDistances(hubs, lat, lon, sqrt);
    var minDist: Option<real> := None;
    var nearest := hubs[0];
    ghost var k := 0;
    var i := 0;
    while i < |hubs|
      invariant 0 <= i <= |hubs|
      invariant i == 0 <==> minDist.None?
      invariant i > 0 ==> k == FirstMin(ds[..i]) && nearest == hubs[k] && minDist == Some(ds[k])
    {
      var dist := sqrt(SquaredDistance(hubs[i], lat, lon));
      assert ds[..i + 1][..i] == ds[..i];
      if minDist.None? || dist < minDist.value {
        minDist := Some(dist);
        nearest := hubs[i];
        k := i;
      }
      i := i + 1;
    }
    assert ds[..|hubs|] == ds;
    r := NearestHub(nearest.code, nearest.name, Round(minDist.value * 111.0, 1));
  }

  /** Under a strictly increasing square root the hub chosen is the first
      with the least squared distance. */
  lemma NearestIsClosest(hubs: seq<Hub>, lat: real, lon: real, sqrt: real -> real)
    requires hubs != []
    requires forall x, y :: x < y ==> sqrt(x) < sqrt(y)
    ensures var k := FirstMin(HubDistances(hubs, lat, lon, sqrt));
      (forall j :: 0 <= j < |hubs| ==> SquaredDistance(hubs[k], lat, lon) <= SquaredDistance(hubs[j], lat, lon))
      && (forall j :: 0 <= j < k ==> SquaredDistance(hubs[j], lat, lon) > SquaredDistance(hubs[k], lat, lon))
  {
    var ds := HubDistances(hubs, lat, lon, sqrt);
    FirstMinIsFirstLeast(ds);
    var k := FirstMin(ds);
    forall j | 0 <= j < |hubs| ensures SquaredDistance(hubs[k], lat, lon) <= SquaredDistance(hubs[j], lat, lon) {
      assert ds[k] <= ds[j];
    }
    forall j | 0 <= j < k ensures SquaredDistance(hubs[j], lat, lon) > SquaredDistance(hubs[k], lat, lon) {
      assert ds[j] > ds[k];
    }
  }

  /** Standing on the Monterrey hub picks it at distance 0. */
  lemma NearestHubExample(sqrt: real -> real)
    requires sqrt(0.0) == 0.0 && forall x :: x > 0.0 ==> sqrt(x) > 0.0
    ensures NearestHubOf(Hubs, 25.68, -100.32, sqrt) == NearestHub("MTY", "Monterrey Hub", 0.0)
  {
    var ds := HubDistances(Hubs, 25.68, -100.32, sqrt);
    assert SquaredDistance(Hubs[0], 25.68, -100.32) == 0.0;
    assert SquaredDistance(Hubs[1], 25.68, -100.32) == 34.281;
    assert SquaredDistance(Hubs[2], 25.68, -100.32) == 40.4786;
    assert ds[0] == 0.0;
    assert ds[1] > 0.0 && ds[2] > 0.0;
    assert ds[..2][..1] == [ds[0]];
    assert FirstMin(ds[..2]) == 0;
    assert ds[..|ds| - 1] == ds[..2];
    RoundExact(0, 1);
  }

  // ---------------------------------------------------------------------
  // Distances and savings

  datatype PendingShipment = PendingShipment(
    id: string, trackingNumber: string, recipientName: string,
    destLat: real, destLon: real, weightKg: real, volumeM3: real, distanceToHubKm: real)

  function SumOf(s: seq<PendingShipment>, f: PendingShipment -> real): real
  {
    if s == [] then 0.0 else SumOf(s[..|s| - 1], f) + f(s[|s| - 1])
  }

  function DistanceToHub(s: PendingShipment): real { s.distanceToHubKm }

  /** A single shipment drives its own distance; a consolidated route is 20
      km to the cluster and 5 km between consecutive stops. */
  function RouteDistance(members: seq<PendingShipment>): real
  {
    if |members| <= 1 then SumOf(members, DistanceToHub)
    else 20.0 + (|members| - 1) as real * 5.0
  }

  /** Kilometres saved and their share of the individual distance in
      percent, 0 when there is no individual distance. */
  function Savings(individualKm: real, clusteredKm: real): (real, real)
  {
    var saved := individualKm - clusteredKm;
    (saved, if individualKm > 0.0 then Round(saved / individualKm * 100.0, 1) else 0.0)
  }

  /** A lone shipment saves nothing. */
  lemma LoneShipmentSavesNothing(s: PendingShipment)
    ensures Savings(SumOf([s], DistanceToHub), RouteDistance([s])) == (0.0, 0.0)
  {
    RoundExact(0, 1);
  }

  lemma {:induction false} SumAtLeast(s: seq<PendingShipment>, f: PendingShipment -> real, lo: real)
    requires forall i :: 0 <= i < |s| ==> f(s[i]) >= lo
    ensures SumOf(s, f) >= |s| as real * lo
  {
    if s != [] {
      SumAtLeast(s[..|s| - 1], f, lo);
    }
  }

  /** Two or more shipments, each at least 15 km from the hub, always save
      distance by consolidating. */
  lemma ConsolidationSaves(members: seq<PendingShipment>)
    requires |members| >= 2
    requires forall i :: 0 <= i < |members| ==> members[i].distanceToHubKm >= 15.0
    ensures Savings(SumOf(members, DistanceToHub), RouteDistance(members)).0 > 0.0
  {
    SumAtLeast(members, DistanceToHub, 15.0);
  }

  /** The percentage never exceeds 100 while the consolidated route has no
      negative length. */
  lemma SavingsAtMostAll(individualKm: real, clusteredKm: real)
    requires clusteredKm >= 0.0
    ensures Savings(individualKm, clusteredKm).1 <= 100.0
  {
    if individualKm > 0.0 {
      var saved := individualKm - clusteredKm;
      DivideMonotone(saved, individualKm, individualKm);
      assert saved / individualKm * 100.0 <= 100.0;
      RoundMonotone(saved / individualKm * 100.0, 100.0, 1);
      RoundExact(1000, 1);
      assert Pow10(1) == 10;
      assert 1000 as real / Pow10(1) as real == 100.0;
    }
  }

  // ---------------------------------------------------------------------
  // Cluster summaries

  /** The cluster identifiers below `bound` that some shipment carries, in
      ascending order. */
  function ClusterIds(labels: seq<nat>, bound: nat): (r: seq<nat>)
    ensures forall c :: c in r <==> c < bound && c in labels
    ensures |r| <= bound
  {
    if bound == 0 then []
    else ClusterIds(labels, bound - 1) + (if bound - 1 in labels then [bound - 1] else [])
  }

  lemma {:induction false} ClusterIdsAscending(labels: seq<nat>, bound: nat)
    ensures forall i, j :: 0 <= i < j < |ClusterIds(labels, bound)| ==>
      ClusterIds(labels, bound)[i] < ClusterIds(labels, bound)[j]
  {
    if bound > 0 {
      ClusterIdsAscending(labels, bound - 1);
      var prev := ClusterIds(labels, bound - 1);
      forall i | 0 <= i < |prev| ensures prev[i] < bound - 1 {
        assert prev[i] in prev;
      }
    }
  }

  /** The shipments labelled c, in their original order. */
  function Members(shipments: seq<PendingShipment>, labels: seq<nat>, c: nat): seq<PendingShipment>
    requires |labels| == |shipments|
  {
    if shipments == [] then []
    else
      Members(shipments[..|shipments| - 1], labels[..|labels| - 1], c)
      + (if labels[|labels| - 1] == c then [shipments[|shipments| - 1]] else [])
  }

  lemma {:induction false} MembersExactly(shipments: seq<PendingShipment>, labels: seq<nat>, c: nat, x: PendingShipment)
    requires |labels| == |shipments|
    ensures x in Members(shipments, labels, c) <==> exists i :: 0 <= i < |shipments| && labels[i] == c && shipments[i] == x
  {
    if shipments != [] {
      var n := |shipments| - 1;
      MembersExactly(shipments[..n], labels[..n], c, x);
      if x in Members(shipments[..n], labels[..n], c) {
        var i :| 0 <= i < n && labels[..n][i] == c && shipments[..n][i] == x;
        assert labels[i] == c && shipments[i] == x;
      }
    }
  }

  lemma MembersNonEmpty(shipments: seq<PendingShipment>, labels: seq<nat>, c: nat)
    requires |labels| == |shipments| && c in labels
    ensures Members(shipments, labels, c) != []
  {
    var i :| 0 <= i < |labels| && labels[i] == c;
    MembersExactly(shipments, labels, c, shipments[i]);
  }

  function Lat(s: PendingShipment): real { s.destLat }
  function Lon(s: PendingShipment): real { s.destLon }
  function Weight(s: PendingShipment): real { s.weightKg }
  function Volume(s: PendingShipment): real { s.volumeM3 }

  datatype ClusterSummary = ClusterSummary(
    clusterId: nat, centroidLat: real, centroidLon: real, shipments: seq<PendingShipment>,
    shipmentCount: nat, totalWeightKg: real, totalVolumeM3: real, recommendedHub: NearestHub,
    recommendedTruck: TruckClass, individualKm: real, optimizedKm: real, savingsKm: real, savingsPct: real)

  /** The summary of one non-empty cluster. */
  function SummaryOf(members: seq<PendingShipment>, c: nat, sqrt: real -> real): ClusterSummary
    requires members != []
  {
    var n := |members| as real;
    var lat := SumOf(members, Lat) / n;
    var lon := SumOf(members, Lon) / n;
    var weight := SumOf(members, Weight);
    var volume := SumOf(members, Volume);
    var individual := SumOf(members, DistanceToHub);
    var clustered := RouteDistance(members);
    var (saved, pct) := Savings(individual, clustered);
    ClusterSummary(c, Round(lat, 6), Round(lon, 6), members, |members|, Round(weight, 2), Round(volume, 3),
                   NearestHubOf(Hubs, lat, lon, sqrt), RecommendTruck(weight, volume),
                   Round(individual, 1), Round(clustered, 1), Round(saved, 1), pct)
  }

  method Summarize(members: seq<PendingShipment>, c: nat, sqrt: real -> real) returns (r: ClusterSummary)
    requires members != []
    ensures r == SummaryOf(members, c, sqrt)
  {
    var n := |members| as real;
    var lat := SumOf(members, Lat) / n;
    var lon := SumOf(members, Lon) / n;
    var hub := FindNearestHub(Hubs, lat, lon, sqrt);
    var weight := SumOf(members, Weight);
    var volume := SumOf(members, Volume);
    var individual := SumOf(members, DistanceToHub);
    var clustered := RouteDistance(members);
    var (saved, pct) := Savings(individual, clustered);
    r := ClusterSummary(c, Round(lat, 6), Round(lon, 6), members, |members|, Round(weight, 2), Round(volume, 3),
                        hub, RecommendTruck(weight, volume),
                        Round(individual, 1), Round(clustered, 1), Round(saved, 1), pct);
  }

  /** The summary of the shipments labelled c. */
  function ClusterAt(shipments: seq<PendingShipment>, labels: seq<nat>, c: nat, sqrt: real -> real): ClusterSummary
    requires |labels| == |shipments| && c in labels
  {
    MembersNonEmpty(shipments, labels, c);
    SummaryOf(Members(shipments, labels, c), c, sqrt)
  }

  /** Cluster identifiers are below min(clusterCount, #shipments), as the
      clustering algorithm assigns them; a count below one is refused. */
  predicate LabelsFit(shipments: seq<PendingShipment>, labels: seq<nat>, clusterCount: int)
  {
    |labels| == |shipments| && forall i :: 0 <= i < |labels| ==> labels[i] < ClusterBound(shipments, clusterCount)
  }

  /** min(clusterCount, #shipments), and 0 for a count below one. */
  function ClusterBound(shipments: seq<PendingShipment>, clusterCount: int): nat
  {
    if clusterCount <= 0 then 0 else if clusterCount <= |shipments| then clusterCount else |shipments|
  }

  /** None when there are shipments but fewer than one cluster is asked for;
      otherwise one summary per identifier in use, in ascending order. */
  function Clusters(shipments: seq<PendingShipment>, labels: seq<nat>, clusterCount: int, sqrt: real -> real):
    Option<seq<ClusterSummary>>
    requires |labels| == |shipments|
  {
    if shipments == [] then Some([])
    else if clusterCount < 1 then None
    else
      var ids := ClusterIds(labels, ClusterBound(shipments, clusterCount));
      Some(seq(|ids|, i requires 0 <= i < |ids| => ClusterAt(shipments, labels, ids[i], sqrt)))
  }

  method ClusterShipments(shipments: seq<PendingShipment>, labels: seq<nat>, clusterCount: int, sqrt: real -> real)
    returns (r: Option<seq<ClusterSummary>>)
    requires |labels| == |shipments|
    ensures r == Clusters(shipments, labels, clusterCount, sqrt)
  {
    if shipments == [] {
      return Some([]);
    }
    if clusterCount < 1 {
      return None;
    }
    var ids := ClusterIds(labels, ClusterBound(shipments, clusterCount));
    var clusters := [];
    var i := 0;
    while i < |ids|
      invariant 0 <= i <= |ids| && |clusters| == i
      invariant forall j :: 0 <= j < i ==> clusters[j] == ClusterAt(shipments, labels, ids[j], sqrt)
    {
      var members := Members(shipments, labels, ids[i]);
      MembersNonEmpty(shipments, labels, ids[i]);
      var summary := Summarize(members, ids[i], sqrt);
      clusters := clusters + [summary];
      i := i + 1;
    }
    assert clusters == seq(|ids|, j requires 0 <= j < |ids| => ClusterAt(shipments, labels, ids[j], sqrt));
    r := Some(clusters);
  }

  /** With labels the clustering algorithm could produce: at most
      min(clusterCount, #shipments) clusters, in ascending identifier order,
      none empty, and every shipment in the cluster of its label. */
  lemma ClustersFacts(shipments: seq<PendingShipment>, labels: seq<nat>, clusterCount: int, sqrt: real -> real)
    requires LabelsFit(shipments, labels, clusterCount) && shipments != [] && clusterCount >= 1
    ensures Clusters(shipments, labels, clusterCount, sqrt).Some?
    ensures var cs := Clusters(shipments, labels, clusterCount, sqrt).value;
      |cs| <= clusterCount && |cs| <= |shipments|
      && (forall i, j :: 0 <= i < j < |cs| ==> cs[i].clusterId < cs[j].clusterId)
      && (forall i :: 0 <= i < |cs| ==> cs[i].shipmentCount >= 1 && |cs[i].shipments| == cs[i].shipmentCount)
      && (forall i, x :: 0 <= i < |cs| && x in cs[i].shipments ==>
            exists m :: 0 <= m < |shipments| && labels[m] == cs[i].clusterId && shipments[m] == x)
  {
    ClusterIdsAscending(labels, ClusterBound(shipments, clusterCount));
    var cs := Clusters(shipments, labels, clusterCount, sqrt).value;
    var ids := ClusterIds(labels, ClusterBound(shipments, clusterCount));
    forall i | 0 <= i < |cs| ensures cs[i].shipmentCount >= 1 && |cs[i].shipments| == cs[i].shipmentCount {
      assert ids[i] in ids;
      MembersNonEmpty(shipments, labels, ids[i]);
    }
    forall i, x | 0 <= i < |cs| && x in cs[i].shipments
      ensures exists m :: 0 <= m < |shipments| && labels[m] == cs[i].clusterId && shipments[m] == x
    {
      MembersExactly(shipments, labels, cs[i].clusterId, x);
    }
  }

  /** Every shipment lands in the cluster of its label. */
  lemma EveryShipmentClustered(shipments: seq<PendingShipment>, labels: seq<nat>, clusterCount: int,
                               sqrt: real -> real, m: nat)
    requires LabelsFit(shipments, labels, clusterCount) && m < |shipments|
    ensures Clusters(shipments, labels, clusterCount, sqrt).Some?
    ensures var cs := Clusters(shipments, labels, clusterCount, sqrt).value;
      exists i :: 0 <= i < |cs| && cs[i].clusterId == labels[m] && shipments[m] in cs[i].shipments
  {
    assert clusterCount >= 1;
    var ids := ClusterIds(labels, ClusterBound(shipments, clusterCount));
    assert labels[m] in ids;
    var i :| 0 <= i < |ids| && ids[i] == labels[m];
    MembersExactly(shipments, labels, labels[m], shipments[m]);
    assert shipments[m] in Clusters(shipments, labels, clusterCount, sqrt).value[i].shipments;
  }
}
