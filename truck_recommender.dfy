// Truck recommendation for one shipment: per-truck features, the hard
// constraints a truck must meet, the weighted score, and the best few
// trucks formatted with the reasons for choosing them. The square root
// used for deadhead distances is an input.

module TruckRecommendation {
  import opened Common
  import opened StableSort

  datatype Truck = Truck(
    id: string, plate: string, truckType: string, maxCapacityKg: real, currentLoadKg: real,
    maxVolumeM3: real, currentVolumeM3: real, hasRefrigeration: bool, hasHazmatCert: bool,
    lastLatitude: real, lastLongitude: real)

  datatype ShipmentNeeds = ShipmentNeeds(
    totalWeightKg: real, totalVolumeM3: real, requiresRefrigeration: bool, isHazmat: bool,
    originLat: real, originLon: real)

  /** The fleet used when the fleet lookup returns nothing. */
  const SampleTrucks: seq<Truck> := [
    Truck("truck-001", "ABC-123", "DryBox", 5000.0, 1500.0, 40.0, 12.0, false, false, 25.70, -100.30),
    Truck("truck-002", "DEF-456", "Refrigerado", 4000.0, 0.0, 35.0, 0.0, true, false, 25.65, -100.35),
    Truck("truck-003", "GHI-789", "DryBox", 8000.0, 3000.0, 60.0, 20.0, false, true, 25.80, -100.20)]

  /** Every truck has a positive weight capacity, so that ratios to it are
      defined. */
  predicate PositiveCapacities(trucks: seq<Truck>)
  {
    forall i :: 0 <= i < |trucks| ==> trucks[i].maxCapacityKg > 0.0
  }

  // ---------------------------------------------------------------------
  // Features

  datatype Features = Features(truck: Truck, availableKg: real, availableM3: real,
                               projectedUtilization: real, deadheadKm: real)

  /** Straight-line distance in km from the truck's last position to the
      pickup: 111 km per degree of latitude, 0.85 of that per degree of
      longitude. */
  function Deadhead(t: Truck, s: ShipmentNeeds, sqrt: real -> real): real
  {
    var latDiff := AbsReal(t.lastLatitude - s.originLat) * 111.0;
    var lonDiff := AbsReal(t.lastLongitude - s.originLon) * 111.0 * 0.85;
    sqrt(latDiff * latDiff + lonDiff * lonDiff)
  }

  function FeaturesOf(t: Truck, s: ShipmentNeeds, considerDeadhead: bool, sqrt: real -> real): Features
    requires t.maxCapacityKg > 0.0
  {
    Features(t, t.maxCapacityKg - t.currentLoadKg, t.maxVolumeM3 - t.currentVolumeM3,
             (t.currentLoadKg + s.totalWeightKg) / t.maxCapacityKg,
             if considerDeadhead then Deadhead(t, s, sqrt) else 0.0)
  }

  /** A truck's projected utilization is at most 1 exactly when the
      shipment fits in its free weight capacity. */
  lemma UtilizationWithinCapacity(t: Truck, s: ShipmentNeeds, considerDeadhead: bool, sqrt: real -> real)
    requires t.maxCapacityKg > 0.0
    ensures var f := FeaturesOf(t, s, considerDeadhead, sqrt);
      f.projectedUtilization <= 1.0 <==> s.totalWeightKg <= f.availableKg
  {
    var m := t.maxCapacityKg;
    var x := t.currentLoadKg + s.totalWeightKg;
    assert m / m == 1.0;
    assert x / m - m / m == (x - m) / m;
    SignOfQuotient(x - m, m);
  }

  lemma SignOfQuotient(a: real, b: real)
    requires b > 0.0
    ensures a <= 0.0 <==> a / b <= 0.0
  {
    assert a / b * b == a;
    if a > 0.0 {
      assert a / b > 0.0;
    }
  }

  method CalculateFeatures(trucks: seq<Truck>, s: ShipmentNeeds, considerDeadhead: bool, sqrt: real -> real)
    returns (rows: seq<Features>)
    requires PositiveCapacities(trucks)
    ensures |rows| == |trucks|
    ensures forall i :: 0 <= i < |trucks| ==> rows[i] == FeaturesOf(trucks[i], s, considerDeadhead, sqrt)
  {
    rows := [];
    var i := 0;
    while i < |trucks|
      invariant 0 <= i <= |trucks| && |rows| == i
      invariant forall j :: 0 <= j < i ==> rows[j] == FeaturesOf(trucks[j], s, considerDeadhead, sqrt)
    {
      var t := trucks[i];
      var deadhead := if considerDeadhead then Deadhead(t, s, sqrt) else 0.0;
      rows := rows + [Features(t, t.maxCapacityKg - t.currentLoadKg, t.maxVolumeM3 - t.currentVolumeM3,
                               (t.currentLoadKg + s.totalWeightKg) / t.maxCapacityKg, deadhead)];
      i := i + 1;
    }
  }

  // ---------------------------------------------------------------------
  // Hard constraints

  /** Enough free weight and volume, refrigeration when the cargo needs it
      and a hazmat certificate when it is hazardous. */
  predicate MeetsConstraints(f: Features, s: ShipmentNeeds)
  {
    f.availableKg >= s.totalWeightKg && f.availableM3 >= s.totalVolumeM3
    && (s.requiresRefrigeration ==> f.truck.hasRefrigeration)
    && (s.isHazmat ==> f.truck.hasHazmatCert)
  }

  /** The rows meeting the constraints, in fleet order. */
  function ApplyHardConstraints(rows: seq<Features>, s: ShipmentNeeds): (r: seq<Features>)
    ensures |r| <= |rows|
  {
    if rows == [] then []
    else ApplyHardConstraints(rows[..|rows| - 1], s)
         + (if MeetsConstraints(rows[|rows| - 1], s) then [rows[|rows| - 1]] else [])
  }

  lemma {:induction false} ConstraintsExactly(rows: seq<Features>, s: ShipmentNeeds, f: Features)
    ensures f in ApplyHardConstraints(rows, s) <==> f in rows && MeetsConstraints(f, s)
  {
    if rows != [] {
      ConstraintsExactly(rows[..|rows| - 1], s, f);
      assert rows == rows[..|rows| - 1] + [rows[|rows| - 1]];
    }
  }

  // ---------------------------------------------------------------------
  // Scores

  datatype Scored = Scored(row: Features, utilScore: real, distanceScore: real, capacityScore: real, finalScore: real)

  function Clip01(x: real): real
  {
    if x < 0.0 then 0.0 else if x > 1.0 then 1.0 else x
  }

  function MaxDeadhead(rows: seq<Features>): real
    requires rows != []
  {
    if |rows| == 1 then rows[0].deadheadKm
    else MaxReal(MaxDeadhead(rows[..|rows| - 1]), rows[|rows| - 1].deadheadKm)
  }

  lemma {:induction false} MaxDeadheadIsMax(rows: seq<Features>)
    requires rows != []
    ensures forall i :: 0 <= i < |rows| ==> rows[i].deadheadKm <= MaxDeadhead(rows)
    ensures exists i :: 0 <= i < |rows| && rows[i].deadheadKm == MaxDeadhead(rows)
  {
    if |rows| > 1 {
      var front := rows[..|rows| - 1];
      MaxDeadheadIsMax(front);
      var i :| 0 <= i < |front| && front[i].deadheadKm == MaxDeadhead(front);
      assert rows[i] == front[i];
      assert forall j :: 0 <= j < |front| ==> rows[j] == front[j];
      var last := |rows| - 1;
      if rows[last].deadheadKm >= MaxDeadhead(front) {
        assert rows[last].deadheadKm == MaxDeadhead(rows);
      } else {
        assert rows[i].deadheadKm == MaxDeadhead(rows);
      }
    } else {
      assert rows[0].deadheadKm == MaxDeadhead(rows);
    }
  }

  /** The largest deadhead, or 1 when none is positive. */
  function DistanceScale(rows: seq<Features>): real
    requires rows != []
  {
    if MaxDeadhead(rows) > 0.0 then MaxDeadhead(rows) else 1.0
  }

  function ScoreOf(f: Features, scale: real): Scored
    requires f.truck.maxCapacityKg > 0.0 && scale != 0.0
  {
    var util := Clip01(f.projectedUtilization);
    var distance := 1.0 - f.deadheadKm / scale;
    var capacity := f.availableKg / f.truck.maxCapacityKg;
    Scored(f, util, distance, capacity, util * 0.4 + distance * 0.35 + capacity * 0.25)
  }

  predicate RowsHaveCapacity(rows: seq<Features>)
  {
    forall i :: 0 <= i < |rows| ==> rows[i].truck.maxCapacityKg > 0.0
  }

  method CalculateScores(rows: seq<Features>) returns (scored: seq<Scored>)
    requires rows != [] && RowsHaveCapacity(rows)
    ensures |scored| == |rows|
    ensures forall i :: 0 <= i < |rows| ==> scored[i] == ScoreOf(rows[i], DistanceScale(rows))
  {
    var maxDist := rows[0].deadheadKm;
    var k := 1;
    while k < |rows|
      invariant 1 <= k <= |rows|
      invariant maxDist == MaxDeadhead(rows[..k])
    {
      assert rows[..k + 1][..k] == rows[..k];
      maxDist := MaxReal(maxDist, rows[k].deadheadKm);
      k := k + 1;
    }
    assert rows[..|rows|] == rows;
    var scale := if maxDist > 0.0 then maxDist else 1.0;
    scored := [];
    var i := 0;
    while i < |rows|
      invariant 0 <= i <= |rows| && |scored| == i
      invariant forall j :: 0 <= j < i ==> scored[j] == ScoreOf(rows[j], scale)
    {
      var f := rows[i];
      var util := Clip01(f.projectedUtilization);
      var distance := 1.0 - f.deadheadKm / scale;
      var capacity := f.availableKg / f.truck.maxCapacityKg;
      scored := scored + [Scored(f, util, distance, capacity, util * 0.4 + distance * 0.35 + capacity * 0.25)];
      i := i + 1;
    }
  }

  lemma UnitRatio(a: real, b: real)
    requires 0.0 <= a <= b && b > 0.0
    ensures 0.0 <= a / b <= 1.0
  {
    DivideMonotone(0.0, a, b);
    DivideMonotone(a, b, b);
  }

  /** With non-negative deadheads every distance score lies in [0, 1]. */
  lemma DistanceScoreRange(rows: seq<Features>, i: nat)
    requires rows != [] && RowsHaveCapacity(rows) && i < |rows|
    requires forall j :: 0 <= j < |rows| ==> rows[j].deadheadKm >= 0.0
    ensures 0.0 <= ScoreOf(rows[i], DistanceScale(rows)).distanceScore <= 1.0
  {
    MaxDeadheadIsMax(rows);
    UnitRatio(rows[i].deadheadKm, DistanceScale(rows));
  }

  /** When some deadhead is positive the farthest truck scores 0 on
      distance. */
  lemma FarthestScoresZero(rows: seq<Features>)
    requires rows != [] && RowsHaveCapacity(rows) && MaxDeadhead(rows) > 0.0
    ensures exists i :: 0 <= i < |rows| && ScoreOf(rows[i], DistanceScale(rows)).distanceScore == 0.0
  {
    MaxDeadheadIsMax(rows);
    var i :| 0 <= i < |rows| && rows[i].deadheadKm == MaxDeadhead(rows);
    assert rows[i].deadheadKm / DistanceScale(rows) == 1.0;
    assert ScoreOf(rows[i], DistanceScale(rows)).distanceScore == 0.0;
  }

  /** When every deadhead is 0 every truck scores 1 on distance. */
  lemma NoDeadheadScoresOne(rows: seq<Features>, i: nat)
    requires rows != [] && RowsHaveCapacity(rows) && i < |rows|
    requires forall j :: 0 <= j < |rows| ==> rows[j].deadheadKm >= 0.0
    requires MaxDeadhead(rows) <= 0.0
    ensures ScoreOf(rows[i], DistanceScale(rows)).distanceScore == 1.0
  {
    MaxDeadheadIsMax(rows);
    assert rows[i].deadheadKm == 0.0;
  }

  /** With a load within capacity and non-negative deadheads the final score
      lies in [0, 1]. */
  lemma FinalScoreInUnit(rows: seq<Features>, i: nat)
    requires rows != [] && RowsHaveCapacity(rows) && i < |rows|
    requires forall j :: 0 <= j < |rows| ==> rows[j].deadheadKm >= 0.0
    requires 0.0 <= rows[i].truck.currentLoadKg <= rows[i].truck.maxCapacityKg
    requires rows[i].availableKg == rows[i].truck.maxCapacityKg - rows[i].truck.currentLoadKg
    ensures 0.0 <= ScoreOf(rows[i], DistanceScale(rows)).finalScore <= 1.0
  {
    DistanceScoreRange(rows, i);
    UnitRatio(rows[i].availableKg, rows[i].truck.maxCapacityKg);
  }

  // ---------------------------------------------------------------------
  // Recommendations

  datatype Recommendation = Recommendation(
    truckId: string, plate: string, truckType: string, maxCapacityKg: real, currentLoadKg: real,
    availableKg: real, score: real, projectedUtilization: real, deadheadKm: real,
    reasons: seq<string>, compatible: bool)

  function Reasons(sc: Scored): (r: seq<string>)
  {
    var found := (if sc.utilScore > 0.7 then ["Good capacity utilization"] else [])
               + (if sc.distanceScore > 0.7 then ["Close to pickup location"] else [])
               + (if sc.row.deadheadKm < 10.0 then ["Minimal deadhead distance"] else []);
    if found == [] then ["Available capacity"] else found
  }

  function RecommendationOf(sc: Scored): Recommendation
  {
    var f := sc.row;
    Recommendation(f.truck.id, f.truck.plate, f.truck.truckType, f.truck.maxCapacityKg, f.truck.currentLoadKg,
                   f.availableKg, Round(sc.finalScore, 3), Round(f.projectedUtilization, 2),
                   Round(f.deadheadKm, 2), Reasons(sc), true)
  }

  method FormatRecommendations(top: seq<Scored>) returns (recommendations: seq<Recommendation>)
    ensures |recommendations| == |top|
    ensures forall i :: 0 <= i < |top| ==> recommendations[i] == RecommendationOf(top[i])
  {
    recommendations := [];
    var i := 0;
    while i < |top|
      invariant 0 <= i <= |top| && |recommendations| == i
      invariant forall j :: 0 <= j < i ==> recommendations[j] == RecommendationOf(top[j])
    {
      var sc := top[i];
      var reasons := [];
      if sc.utilScore > 0.7 {
        reasons := reasons + ["Good capacity utilization"];
      }
      if sc.distanceScore > 0.7 {
        reasons := reasons + ["Close to pickup location"];
      }
      if sc.row.deadheadKm < 10.0 {
        reasons := reasons + ["Minimal deadhead distance"];
      }
      if reasons == [] {
        reasons := ["Available capacity"];
      }
      var f := sc.row;
      recommendations := recommendations + [Recommendation(f.truck.id, f.truck.plate, f.truck.truckType,
        f.truck.maxCapacityKg, f.truck.currentLoadKg, f.availableKg, Round(sc.finalScore, 3),
        Round(f.projectedUtilization, 2), Round(f.deadheadKm, 2), reasons, true)];
      i := i + 1;
    }
  }

  /** Every recommendation gives at least one reason, "Available capacity"
      only when no other applies, and is marked compatible. */
  lemma RecommendationShape(sc: Scored)
    ensures RecommendationOf(sc).reasons != [] && RecommendationOf(sc).compatible
    ensures RecommendationOf(sc).reasons == ["Available capacity"] <==>
      sc.utilScore <= 0.7 && sc.distanceScore <= 0.7 && sc.row.deadheadKm >= 10.0
  {
    var found := (if sc.utilScore > 0.7 then ["Good capacity utilization"] else [])
               + (if sc.distanceScore > 0.7 then ["Close to pickup location"] else [])
               + (if sc.row.deadheadKm < 10.0 then ["Minimal deadhead distance"] else []);
    if found != [] {
      assert |found[0]| >= 24;
      assert |"Available capacity"| == 18;
    }
  }

  function FinalScore(sc: Scored): real { sc.finalScore }

  /** The fleet actually considered: the given one, or the sample fleet
      when none is given. */
  function Fleet(trucks: seq<Truck>): seq<Truck>
  {
    if trucks == [] then SampleTrucks else trucks
  }

  /** The feasible trucks, best score first with ties in fleet order, at most
      `limit` of them. */
  function TopScored(trucks: seq<Truck>, s: ShipmentNeeds, limit: nat, considerDeadhead: bool, sqrt: real -> real):
    seq<Scored>
    requires PositiveCapacities(trucks)
  {
    PyTake(SortDesc(ScoredFeasible(trucks, s, considerDeadhead, sqrt), FinalScore), limit)
  }

  /** The feature row of every truck of the fleet, in fleet order. */
  function FleetRows(trucks: seq<Truck>, s: ShipmentNeeds, considerDeadhead: bool, sqrt: real -> real): seq<Features>
    requires PositiveCapacities(trucks)
  {
    var fleet := Fleet(trucks);
    seq(|fleet|, i requires 0 <= i < |fleet| => FeaturesOf(fleet[i], s, considerDeadhead, sqrt))
  }

  /** The feasible rows, each scored against the feasible fleet's distance
      scale, in fleet order. */
  function ScoredFeasible(trucks: seq<Truck>, s: ShipmentNeeds, considerDeadhead: bool, sqrt: real -> real):
    (r: seq<Scored>)
    requires PositiveCapacities(trucks)
    ensures var feasible := ApplyHardConstraints(FleetRows(trucks, s, considerDeadhead, sqrt), s);
      |r| == |feasible| && forall i :: 0 <= i < |r| ==> r[i].row == feasible[i]
  {
    var rows := FleetRows(trucks, s, considerDeadhead, sqrt);
    var feasible := ApplyHardConstraints(rows, s);
    if feasible == [] then []
    else
      FeasibleHaveCapacity(rows, s);
      var scale := DistanceScale(feasible);
      seq(|feasible|, i requires 0 <= i < |feasible| => ScoreOf(feasible[i], scale))
  }

  /** The recommendation is the best of the feasible trucks: min(limit,
      #feasible) of them, none repeated, and no feasible truck left out
      scores higher than one recommended. */
  lemma TopScoredIsBest(trucks: seq<Truck>, s: ShipmentNeeds, limit: nat, considerDeadhead: bool, sqrt: real -> real)
    requires PositiveCapacities(trucks)
    ensures var scored := ScoredFeasible(trucks, s, considerDeadhead, sqrt);
      var top := TopScored(trucks, s, limit, considerDeadhead, sqrt);
      |top| == (if limit <= |scored| then limit else |scored|)
      && multiset(top) <= multiset(scored)
      && forall x, i :: x in multiset(scored) - multiset(top) && 0 <= i < |top| ==>
           x.finalScore <= top[i].finalScore
  {
    var scored := ScoredFeasible(trucks, s, considerDeadhead, sqrt);
    var top := TopScored(trucks, s, limit, considerDeadhead, sqrt);
    var sorted := SortDesc(scored, FinalScore);
    assert top == sorted[..|top|];
    TopPrefixIsBest(scored, |top|, FinalScore);
    forall x: Scored, i | x in multiset(scored) - multiset(top) && 0 <= i < |top|
      ensures x.finalScore <= top[i].finalScore
    {
      assert FinalScore(x) <= FinalScore(sorted[i]);
    }
  }

  lemma FeasibleHaveCapacity(rows: seq<Features>, s: ShipmentNeeds)
    requires RowsHaveCapacity(rows)
    ensures RowsHaveCapacity(ApplyHardConstraints(rows, s))
  {
    var r := ApplyHardConstraints(rows, s);
    forall i | 0 <= i < |r| ensures r[i].truck.maxCapacityKg > 0.0 {
      ConstraintsExactly(rows, s, r[i]);
    }
  }

  method RecommendTrucks(trucks: seq<Truck>, s: ShipmentNeeds, limit: nat, considerDeadhead: bool, sqrt: real -> real)
    returns (recommendations: seq<Recommendation>)
    requires PositiveCapacities(trucks)
    ensures |recommendations| == |TopScored(trucks, s, limit, considerDeadhead, sqrt)|
    ensures forall i :: 0 <= i < |recommendations| ==>
      recommendations[i] == RecommendationOf(TopScored(trucks, s, limit, considerDeadhead, sqrt)[i])
  {
    var fleet := Fleet(trucks);
    var rows := CalculateFeatures(fleet, s, considerDeadhead, sqrt);
    assert rows == FleetRows(trucks, s, considerDeadhead, sqrt);
    var feasible := ApplyHardConstraints(rows, s);
    if feasible == [] {
      assert ScoredFeasible(trucks, s, considerDeadhead, sqrt) == [];
      return [];
    }
    FeasibleHaveCapacity(rows, s);
    var scored := CalculateScores(feasible);
    assert scored == seq(|feasible|, i requires 0 <= i < |feasible| => ScoreOf(feasible[i], DistanceScale(feasible)));
    assert scored == ScoredFeasible(trucks, s, considerDeadhead, sqrt);
    var top := PyTake(SortDesc(scored, FinalScore), limit);
    recommendations := FormatRecommendations(top);
  }

  /** Every truck recommended meets the hard constraints, there are at most
      `limit` of them, best score first, and there are none exactly when
      no truck of the fleet meets the constraints (for a positive limit). */
  lemma TopScoredFacts(trucks: seq<Truck>, s: ShipmentNeeds, limit: nat, considerDeadhead: bool, sqrt: real -> real)
    requires PositiveCapacities(trucks)
    ensures var top := TopScored(trucks, s, limit, considerDeadhead, sqrt);
      |top| <= limit
      && (forall i :: 0 <= i < |top| ==> MeetsConstraints(top[i].row, s))
      && (forall i, j :: 0 <= i < j < |top| ==> top[i].finalScore >= top[j].finalScore)
  {
    var fleet := Fleet(trucks);
    var rows := seq(|fleet|, i requires 0 <= i < |fleet| => FeaturesOf(fleet[i], s, considerDeadhead, sqrt));
    var feasible := ApplyHardConstraints(rows, s);
    if feasible != [] {
      FeasibleHaveCapacity(rows, s);
      var scale := DistanceScale(feasible);
      var scored := seq(|feasible|, i requires 0 <= i < |feasible| => ScoreOf(feasible[i], scale));
      assert rows == FleetRows(trucks, s, considerDeadhead, sqrt);
      assert scored == ScoredFeasible(trucks, s, considerDeadhead, sqrt);
      var sorted := SortDesc(scored, FinalScore);
      SortDescIsSortedPermutation(scored, FinalScore);
      var top := TopScored(trucks, s, limit, considerDeadhead, sqrt);
      assert top == PyTake(sorted, limit);
      forall i | 0 <= i < |top| ensures MeetsConstraints(top[i].row, s) {
        assert top[i] == sorted[i];
        assert sorted[i] in multiset(scored);
        var j :| 0 <= j < |scored| && scored[j] == sorted[i];
        assert feasible[j] in feasible;
        ConstraintsExactly(rows, s, feasible[j]);
      }
      forall i, j | 0 <= i < j < |top| ensures top[i].finalScore >= top[j].finalScore {
        assert FinalScore(sorted[i]) >= FinalScore(sorted[j]);
      }
    }
  }

  /** With a positive limit the result is empty exactly when no truck of
      the fleet meets the constraints. */
  lemma EmptyIffNoneFeasible(trucks: seq<Truck>, s: ShipmentNeeds, limit: nat, considerDeadhead: bool, sqrt: real -> real)
    requires PositiveCapacities(trucks) && limit >= 1
    ensures TopScored(trucks, s, limit, considerDeadhead, sqrt) == [] <==>
      forall t :: t in Fleet(trucks) ==> !MeetsConstraints(FeaturesOf(t, s, considerDeadhead, sqrt), s)
  {
    var fleet := Fleet(trucks);
    var rows := seq(|fleet|, i requires 0 <= i < |fleet| => FeaturesOf(fleet[i], s, considerDeadhead, sqrt));
    var feasible := ApplyHardConstraints(rows, s);
    forall t | t in fleet && MeetsConstraints(FeaturesOf(t, s, considerDeadhead, sqrt), s)
      ensures feasible != []
    {
      var i :| 0 <= i < |fleet| && fleet[i] == t;
      assert rows[i] in rows;
      ConstraintsExactly(rows, s, rows[i]);
    }
    if feasible != [] {
      var f := feasible[0];
      assert f in feasible;
      ConstraintsExactly(rows, s, f);
      var i :| 0 <= i < |rows| && rows[i] == f;
      assert fleet[i] in fleet;
    }
  }

  /** The sample shipment of 2500 kg and 15 m3, neither refrigerated nor
      hazardous, fits every truck of the sample fleet. */
  lemma SampleFleetFits(considerDeadhead: bool, sqrt: real -> real)
    ensures var s := ShipmentNeeds(2500.0, 15.0, false, false, 25.6866, -100.3161);
      forall t :: t in SampleTrucks ==> MeetsConstraints(FeaturesOf(t, s, considerDeadhead, sqrt), s)
  {
  }
}
