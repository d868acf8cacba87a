// The truck loading optimizer: a greedy first-fit-decreasing placement of
// cargo boxes into a truck's cargo space, followed by utilisation figures, a
// weight-weighted centre of gravity, a stability verdict, a numbered loading
// sequence and warnings.
//
// Coordinates: x runs across the width, y up the height, z along the depth
// (length) of the cargo space. The placement keeps a cursor (x, y, z), the
// tallest box of the current layer (rowHeight) and the longest box of the
// current row (layerDepth).

module Loading {
  import opened Common
  import opened StableSort

  datatype CargoItem = CargoItem(
    sku: string,
    description: string,
    weightKg: real,
    widthCm: int,
    heightCm: int,
    lengthCm: int,
    volumeCm3: int,
    isFragile: bool)

  datatype TruckSpec = TruckSpec(
    id: string,
    plate: string,
    cargoWidthCm: int,
    cargoHeightCm: int,
    cargoDepthCm: int,
    maxCapacityKg: real)

  /** The truck the service loads: its dimensions are fixed sample values. */
  function SampleTruck(truckId: string): (t: TruckSpec)
    ensures ValidTruck(t)
  {
    TruckSpec(truckId, "ABC-123", 240, 220, 600, 5000.0)
  }

  predicate ValidTruck(t: TruckSpec)
  {
    t.cargoWidthCm > 0 && t.cargoHeightCm > 0 && t.cargoDepthCm > 0 && t.maxCapacityKg > 0.0
  }

  datatype Position = Position(x: int, y: int, z: int)
  datatype Dimensions = Dimensions(width: int, height: int, depth: int)
  datatype PlacedItem = PlacedItem(item: CargoItem, position: Position, dimensions: Dimensions, rotated: bool)

  /** The loop's variables: cursor, row/layer maxima, running totals, results. */
  datatype PackState = PackState(
    x: int, y: int, z: int,
    rowHeight: int, layerDepth: int,
    totalWeight: real, totalVolume: int,
    loaded: seq<PlacedItem>, unfitted: seq<CargoItem>)

  const Start := PackState(0, 0, 0, 0, 0, 0.0, 0, [], [])

  /** Which of the branches an item takes. */
  datatype Branch = OverWeight | SameRow | NewRow | NewLayer | NoSpace

  function VolumeKey(it: CargoItem): real { it.volumeCm3 as real }

  /** Largest volume first; equal volumes keep their input order. */
  function SortByVolume(items: seq<CargoItem>): (r: seq<CargoItem>)
    ensures SortedDesc(r, VolumeKey)
    ensures multiset(r) == multiset(items)
  {
    SortDescIsSortedPermutation(items, VolumeKey);
    SortDesc(items, VolumeKey)
  }

  function BranchOf(st: PackState, it: CargoItem, truck: TruckSpec): Branch
  {
    if st.totalWeight + it.weightKg > truck.maxCapacityKg then OverWeight
    else if st.x + it.widthCm <= truck.cargoWidthCm then SameRow
    else if st.z + st.layerDepth + it.lengthCm <= truck.cargoDepthCm then NewRow
    else if st.y + st.rowHeight + it.heightCm <= truck.cargoHeightCm then NewLayer
    else NoSpace
  }

  function StartRow(st: PackState): PackState
  {
    st.(x := 0, z := st.z + st.layerDepth, layerDepth := 0)
  }

  function StartLayer(st: PackState): PackState
  {
    st.(x := 0, y := st.y + st.rowHeight, z := 0, rowHeight := 0, layerDepth := 0)
  }

  function BoxAt(st: PackState, it: CargoItem): PlacedItem
  {
    PlacedItem(it, Position(st.x, st.y, st.z), Dimensions(it.widthCm, it.heightCm, it.lengthCm), false)
  }

  /** Places the item at the cursor and advances it across the row. */
  function Put(st: PackState, it: CargoItem): PackState
  {
    st.(loaded := st.loaded + [BoxAt(st, it)],
        x := st.x + it.widthCm,
        rowHeight := MaxInt(st.rowHeight, it.heightCm),
        layerDepth := MaxInt(st.layerDepth, it.lengthCm),
        totalWeight := st.totalWeight + it.weightKg,
        totalVolume := st.totalVolume + it.volumeCm3)
  }

  /** One iteration of the placement loop. */
  function Place(st: PackState, it: CargoItem, truck: TruckSpec): PackState
  {
    match BranchOf(st, it, truck)
    case OverWeight => st.(unfitted := st.unfitted + [it])
    case SameRow => Put(st, it)
    case NewRow => Put(StartRow(st), it)
    case NewLayer => Put(StartLayer(st), it)
    case NoSpace => st.(unfitted := st.unfitted + [it])
  }

  /** The state after the loop has run over `items` in order. */
  function Pack(truck: TruckSpec, items: seq<CargoItem>): PackState
  {
    if items == [] then Start
    else Place(Pack(truck, items[..|items| - 1]), items[|items| - 1], truck)
  }

  function Items(ps: seq<PlacedItem>): (r: seq<CargoItem>)
    ensures |r| == |ps| && forall i :: 0 <= i < |ps| ==> r[i] == ps[i].item
  {
    seq(|ps|, i requires 0 <= i < |ps| => ps[i].item)
  }

  function SumWeight(ps: seq<PlacedItem>): real
  {
    if ps == [] then 0.0 else SumWeight(ps[..|ps| - 1]) + ps[|ps| - 1].item.weightKg
  }

  function SumVolume(ps: seq<PlacedItem>): int
  {
    if ps == [] then 0 else SumVolume(ps[..|ps| - 1]) + ps[|ps| - 1].item.volumeCm3
  }

  // ---------------------------------------------------------------------
  // Geometry

  predicate NonNegativeDims(it: CargoItem)
  {
    it.widthCm >= 0 && it.heightCm >= 0 && it.lengthCm >= 0
  }

  predicate AllNonNegativeDims(items: seq<CargoItem>)
  {
    forall i :: 0 <= i < |items| ==> NonNegativeDims(items[i])
  }

  predicate WellPlaced(p: PlacedItem)
  {
    p.position.x >= 0 && p.position.y >= 0 && p.position.z >= 0
    && p.dimensions.width >= 0 && p.dimensions.height >= 0 && p.dimensions.depth >= 0
  }

  /** Two boxes are separated along some axis, so their interiors do not meet. */
  predicate Disjoint(p: PlacedItem, q: PlacedItem)
  {
    p.position.x + p.dimensions.width <= q.position.x || q.position.x + q.dimensions.width <= p.position.x
    || p.position.y + p.dimensions.height <= q.position.y || q.position.y + q.dimensions.height <= p.position.y
    || p.position.z + p.dimensions.depth <= q.position.z || q.position.z + q.dimensions.depth <= p.position.z
  }

  predicate Inside(px: real, py: real, pz: real, p: PlacedItem)
  {
    p.position.x as real < px < (p.position.x + p.dimensions.width) as real
    && p.position.y as real < py < (p.position.y + p.dimensions.height) as real
    && p.position.z as real < pz < (p.position.z + p.dimensions.depth) as real
  }

  lemma DisjointBoxesShareNoPoint(p: PlacedItem, q: PlacedItem, px: real, py: real, pz: real)
    requires Disjoint(p, q)
    ensures !(Inside(px, py, pz, p) && Inside(px, py, pz, q))
  {
  }

  /** Where an already placed box lies relative to the cursor: in an earlier
      layer, in an earlier row of the current layer, or earlier in the
      current row. */
  predicate Behind(p: PlacedItem, st: PackState)
  {
    p.position.y + p.dimensions.height <= st.y
    || (p.position.y == st.y && p.dimensions.height <= st.rowHeight
        && (p.position.z + p.dimensions.depth <= st.z
            || (p.position.z == st.z && p.dimensions.depth <= st.layerDepth
                && p.position.x + p.dimensions.width <= st.x)))
  }

  ghost predicate PairwiseDisjoint(ps: seq<PlacedItem>)
  {
    forall i, j :: 0 <= i < j < |ps| ==> Disjoint(ps[i], ps[j])
  }

  ghost predicate LayersAscend(ps: seq<PlacedItem>)
  {
    forall i, j :: 0 <= i < j < |ps| ==> ps[i].position.y <= ps[j].position.y
  }

  ghost predicate Inv(st: PackState, truck: TruckSpec)
  {
    0 <= st.x && 0 <= st.y && 0 <= st.z && 0 <= st.rowHeight && 0 <= st.layerDepth
    && st.totalWeight <= truck.maxCapacityKg
    && (forall i :: 0 <= i < |st.loaded| ==> WellPlaced(st.loaded[i]) && Behind(st.loaded[i], st))
    && PairwiseDisjoint(st.loaded)
    && (forall i :: 0 <= i < |st.loaded| ==> st.loaded[i].position.y <= st.y)
    && LayersAscend(st.loaded)
  }

  lemma StartRowKeepsInv(st: PackState, truck: TruckSpec)
    requires Inv(st, truck)
    ensures Inv(StartRow(st), truck)
  {
    var s2 := StartRow(st);
    forall i | 0 <= i < |s2.loaded| ensures Behind(s2.loaded[i], s2) {
      assert Behind(st.loaded[i], st);
    }
  }

  lemma StartLayerKeepsInv(st: PackState, truck: TruckSpec)
    requires Inv(st, truck)
    ensures Inv(StartLayer(st), truck)
  {
    var s2 := StartLayer(st);
    forall i | 0 <= i < |s2.loaded| ensures Behind(s2.loaded[i], s2) && s2.loaded[i].position.y <= s2.y {
      assert Behind(st.loaded[i], st);
      assert WellPlaced(st.loaded[i]);
    }
  }

  lemma PutKeepsInv(st: PackState, it: CargoItem, truck: TruckSpec)
    requires Inv(st, truck) && NonNegativeDims(it)
    requires st.totalWeight + it.weightKg <= truck.maxCapacityKg
    ensures Inv(Put(st, it), truck)
  {
    var s2 := Put(st, it);
    var n := BoxAt(st, it);
    assert s2.loaded == st.loaded + [n];
    forall i | 0 <= i < |s2.loaded|
      ensures WellPlaced(s2.loaded[i]) && Behind(s2.loaded[i], s2) && s2.loaded[i].position.y <= s2.y
    {
      if i < |st.loaded| {
        assert s2.loaded[i] == st.loaded[i];
        assert Behind(st.loaded[i], st);
      }
    }
    forall i, j | 0 <= i < j < |s2.loaded| ensures Disjoint(s2.loaded[i], s2.loaded[j]) {
      if j < |st.loaded| {
        assert Disjoint(st.loaded[i], st.loaded[j]);
      } else {
        assert Behind(st.loaded[i], st);
      }
    }
    forall i, j | 0 <= i < j < |s2.loaded| ensures s2.loaded[i].position.y <= s2.loaded[j].position.y {
      if j < |st.loaded| {
        assert st.loaded[i].position.y <= st.loaded[j].position.y;
      } else {
        assert st.loaded[i].position.y <= st.y;
      }
    }
  }

  lemma PlaceKeepsInv(st: PackState, it: CargoItem, truck: TruckSpec)
    requires Inv(st, truck) && NonNegativeDims(it)
    ensures Inv(Place(st, it, truck), truck)
  {
    match BranchOf(st, it, truck)
    case OverWeight =>
    case SameRow => PutKeepsInv(st, it, truck);
    case NewRow => StartRowKeepsInv(st, truck); PutKeepsInv(StartRow(st), it, truck);
    case NewLayer => StartLayerKeepsInv(st, truck); PutKeepsInv(StartLayer(st), it, truck);
    case NoSpace =>
  }

  /** The cursor invariant holds after every iteration; in particular the
      placed boxes never overlap and never exceed the weight budget. */
  lemma {:induction false} PackKeepsInv(truck: TruckSpec, items: seq<CargoItem>)
    requires truck.maxCapacityKg >= 0.0 && AllNonNegativeDims(items)
    ensures Inv(Pack(truck, items), truck)
  {
    if items != [] {
      var front := items[..|items| - 1];
      assert AllNonNegativeDims(front) by {
        forall i | 0 <= i < |front| ensures NonNegativeDims(front[i]) { assert front[i] == items[i]; }
      }
      PackKeepsInv(truck, front);
      PlaceKeepsInv(Pack(truck, front), items[|items| - 1], truck);
    }
  }

  /** The weight check precedes geometry, so the running weight never
      exceeds the truck's capacity, whatever the boxes' dimensions. */
  lemma {:induction false} PackWithinBudget(truck: TruckSpec, items: seq<CargoItem>)
    requires truck.maxCapacityKg >= 0.0
    ensures Pack(truck, items).totalWeight <= truck.maxCapacityKg
  {
    if items != [] {
      PackWithinBudget(truck, items[..|items| - 1]);
    }
  }

  /** Every item ends up in exactly one of the two lists. */
  lemma {:induction false} PackPartitions(truck: TruckSpec, items: seq<CargoItem>)
    ensures |Pack(truck, items).loaded| + |Pack(truck, items).unfitted| == |items|
    ensures multiset(Items(Pack(truck, items).loaded)) + multiset(Pack(truck, items).unfitted) == multiset(items)
  {
    if items != [] {
      var front := items[..|items| - 1];
      var it := items[|items| - 1];
      PackPartitions(truck, front);
      var st := Pack(truck, front);
      assert items == front + [it];
      var b := BranchOf(st, it, truck);
      if b == SameRow || b == NewRow || b == NewLayer {
        var pre := if b == SameRow then st else if b == NewRow then StartRow(st) else StartLayer(st);
        assert Place(st, it, truck) == Put(pre, it);
        assert Items(st.loaded + [BoxAt(pre, it)]) == Items(st.loaded) + [it];
      }
    }
  }

  lemma PutTotals(st: PackState, it: CargoItem)
    requires st.totalWeight == SumWeight(st.loaded) && st.totalVolume == SumVolume(st.loaded)
    ensures Put(st, it).totalWeight == SumWeight(Put(st, it).loaded)
    ensures Put(st, it).totalVolume == SumVolume(Put(st, it).loaded)
  {
    var l2 := Put(st, it).loaded;
    assert l2[..|l2| - 1] == st.loaded;
  }

  lemma PlaceTotals(st: PackState, it: CargoItem, truck: TruckSpec)
    requires st.totalWeight == SumWeight(st.loaded) && st.totalVolume == SumVolume(st.loaded)
    ensures Place(st, it, truck).totalWeight == SumWeight(Place(st, it, truck).loaded)
    ensures Place(st, it, truck).totalVolume == SumVolume(Place(st, it, truck).loaded)
  {
    match BranchOf(st, it, truck)
    case OverWeight =>
    case SameRow => PutTotals(st, it);
    case NewRow => PutTotals(StartRow(st), it);
    case NewLayer => PutTotals(StartLayer(st), it);
    case NoSpace =>
  }

  /** The running totals are the sums over the placed boxes. */
  lemma {:induction false} PackTotals(truck: TruckSpec, items: seq<CargoItem>)
    ensures Pack(truck, items).totalWeight == SumWeight(Pack(truck, items).loaded)
    ensures Pack(truck, items).totalVolume == SumVolume(Pack(truck, items).loaded)
  {
    if items != [] {
      var front := items[..|items| - 1];
      PackTotals(truck, front);
      PlaceTotals(Pack(truck, front), items[|items| - 1], truck);
    }
  }

  /** The vertical cursor never moves down. */
  lemma PlaceRaisesOnly(st: PackState, it: CargoItem, truck: TruckSpec)
    requires st.rowHeight >= 0
    ensures Place(st, it, truck).y >= st.y
  {
  }

  /** The weight check comes first: once the running weight is non-negative,
      an item heavier than the whole budget is never placed. */
  lemma OverweightNeverPlaced(st: PackState, it: CargoItem, truck: TruckSpec)
    requires st.totalWeight >= 0.0 && it.weightKg > truck.maxCapacityKg
    ensures Place(st, it, truck).loaded == st.loaded
    ensures Place(st, it, truck).unfitted == st.unfitted + [it]
  {
  }

  /** Only the same-row branch checks the width: a box placed there ends
      within the cargo width. */
  lemma SameRowWithinWidth(st: PackState, it: CargoItem, truck: TruckSpec)
    requires BranchOf(st, it, truck) == SameRow
    ensures var p := Place(st, it, truck).loaded[|st.loaded|];
            p.position.x + p.dimensions.width <= truck.cargoWidthCm
  {
  }

  /** A box wider than the truck is still placed, through the new-row
      branch, which checks only the depth. */
  lemma OversizeBoxIsPlaced()
    ensures var t := SampleTruck("T1");
            var wide := CargoItem("WIDE", "wide crate", 10.0, 300, 30, 50, 450000, false);
            var p := Pack(t, [wide]).loaded;
            |p| == 1 && p[0].position.x + p[0].dimensions.width > t.cargoWidthCm
  {
    var t := SampleTruck("T1");
    var wide := CargoItem("WIDE", "wide crate", 10.0, 300, 30, 50, 450000, false);
    assert [wide][..0] == [];
    assert BranchOf(Start, wide, t) == NewRow;
  }

  // ---------------------------------------------------------------------
  // Centre of gravity and stability

  datatype Cog = Cog(x: real, y: real, z: real, frontPct: real, rearPct: real)

  function CentreX(p: PlacedItem): real { p.position.x as real + p.dimensions.width as real / 2.0 }
  function CentreY(p: PlacedItem): real { p.position.y as real + p.dimensions.height as real / 2.0 }
  function CentreZ(p: PlacedItem): real { p.position.z as real + p.dimensions.depth as real / 2.0 }

  /** Sum of weight times the centre coordinate chosen by `centre`. */
  function Moment(ps: seq<PlacedItem>, centre: PlacedItem -> real): real
  {
    if ps == [] then 0.0 else Moment(ps[..|ps| - 1], centre) + centre(ps[|ps| - 1]) * ps[|ps| - 1].item.weightKg
  }

  function Mean(moment: real, weight: real): real
  {
    if weight > 0.0 then moment / weight else 0.0
  }

  /** The reported centre of gravity of a list of placed boxes. */
  function CogOf(ps: seq<PlacedItem>, truck: TruckSpec): Cog
    requires truck.cargoDepthCm > 0
  {
    if ps == [] then Cog(0.0, 0.0, 0.0, 50.0, 50.0)
    else
      var w := SumWeight(ps);
      var cz := Mean(Moment(ps, CentreZ), w);
      var front := (1.0 - cz / truck.cargoDepthCm as real) * 100.0;
      Cog(Round(Mean(Moment(ps, CentreX), w), 1), Round(Mean(Moment(ps, CentreY), w), 1),
          Round(cz, 1), front, 100.0 - front)
  }

  method CenterOfGravity(ps: seq<PlacedItem>, truck: TruckSpec) returns (cog: Cog)
    requires truck.cargoDepthCm > 0
    ensures cog == CogOf(ps, truck)
    ensures ps == [] ==> cog.frontPct == 50.0 && cog.rearPct == 50.0
    ensures cog.frontPct + cog.rearPct == 100.0
  {
    if ps == [] {
      return Cog(0.0, 0.0, 0.0, 50.0, 50.0);
    }
    var totalWeight, weightedX, weightedY, weightedZ := 0.0, 0.0, 0.0, 0.0;
    var i := 0;
    while i < |ps|
      invariant 0 <= i <= |ps|
      invariant totalWeight == SumWeight(ps[..i])
      invariant weightedX == Moment(ps[..i], CentreX)
      invariant weightedY == Moment(ps[..i], CentreY)
      invariant weightedZ == Moment(ps[..i], CentreZ)
    {
      assert ps[..i + 1][..i] == ps[..i];
      var weight := ps[i].item.weightKg;
      totalWeight := totalWeight + weight;
      weightedX := weightedX + CentreX(ps[i]) * weight;
      weightedY := weightedY + CentreY(ps[i]) * weight;
      weightedZ := weightedZ + CentreZ(ps[i]) * weight;
      i := i + 1;
    }
    assert ps[..i] == ps;
    var cogX := if totalWeight > 0.0 then weightedX / totalWeight else 0.0;
    var cogY := if totalWeight > 0.0 then weightedY / totalWeight else 0.0;
    var cogZ := if totalWeight > 0.0 then weightedZ / totalWeight else 0.0;
    var frontPct := (1.0 - cogZ / truck.cargoDepthCm as real) * 100.0;
    cog := Cog(Round(cogX, 1), Round(cogY, 1), Round(cogZ, 1), frontPct, 100.0 - frontPct);
  }

  /** With positive weights the weighted mean of the centres lies between the
      smallest and the largest centre. */
  lemma {:induction false} MomentBounds(ps: seq<PlacedItem>, centre: PlacedItem -> real, lo: real, hi: real)
    requires forall i :: 0 <= i < |ps| ==> ps[i].item.weightKg > 0.0 && lo <= centre(ps[i]) <= hi
    ensures lo * SumWeight(ps) <= Moment(ps, centre) <= hi * SumWeight(ps)
    ensures ps != [] ==> SumWeight(ps) > 0.0
  {
    if ps != [] {
      var front := ps[..|ps| - 1];
      var last := ps[|ps| - 1];
      forall i | 0 <= i < |front| ensures front[i].item.weightKg > 0.0 && lo <= centre(front[i]) <= hi {
        assert front[i] == ps[i];
      }
      MomentBounds(front, centre, lo, hi);
      var w := last.item.weightKg;
      var c := centre(last);
      assert w > 0.0 && lo <= c <= hi;
      var sw, m := SumWeight(front), Moment(front, centre);
      assert SumWeight(ps) == sw + w;
      assert Moment(ps, centre) == m + c * w;
      WeightedStep(sw, m, w, c, lo, hi);
    }
  }

  /** Adding one positive weight whose centre lies in [lo, hi] keeps the
      moment between lo and hi times the total weight. */
  lemma WeightedStep(sw: real, m: real, w: real, c: real, lo: real, hi: real)
    requires lo * sw <= m <= hi * sw && w > 0.0 && lo <= c <= hi
    ensures lo * (sw + w) <= m + c * w <= hi * (sw + w)
  {
    assert (c - lo) * w >= 0.0 && (hi - c) * w >= 0.0;
    assert lo * (sw + w) == lo * sw + lo * w;
    assert hi * (sw + w) == hi * sw + hi * w;
  }

  lemma {:induction false} MeanWithin(ps: seq<PlacedItem>, centre: PlacedItem -> real, lo: real, hi: real)
    requires ps != []
    requires forall i :: 0 <= i < |ps| ==> ps[i].item.weightKg > 0.0 && lo <= centre(ps[i]) <= hi
    ensures lo <= Mean(Moment(ps, centre), SumWeight(ps)) <= hi
  {
    MomentBounds(ps, centre, lo, hi);
    var w := SumWeight(ps);
    var m := Moment(ps, centre);
    DivBetween(m, w, lo, hi);
    assert Mean(m, w) == m / w;
  }

  lemma DivBetween(m: real, w: real, lo: real, hi: real)
    requires w > 0.0 && lo * w <= m <= hi * w
    ensures lo <= m / w <= hi
  {
    var q := m / w;
    assert q * w == m;
    assert (q - lo) * w >= 0.0;
    assert (hi - q) * w >= 0.0;
    NonNegativeFactor(q - lo, w);
    NonNegativeFactor(hi - q, w);
  }

  lemma NonNegativeFactor(a: real, w: real)
    requires w > 0.0 && a * w >= 0.0
    ensures a >= 0.0
  {
  }

  /** Balanced iff both horizontal deviations from the centre line are below 30%. */
  function CheckStability(cog: Cog, truck: TruckSpec): bool
    requires truck.cargoWidthCm > 0 && truck.cargoDepthCm > 0
  {
    var centerX := truck.cargoWidthCm as real / 2.0;
    var centerZ := truck.cargoDepthCm as real / 2.0;
    AbsReal(cog.x - centerX) / centerX < 0.3 && AbsReal(cog.z - centerZ) / centerZ < 0.3
  }

  /** The same verdict as a window: the centre of gravity must lie strictly
      within the middle 30% of the width and of the depth. */
  lemma StabilityWindow(cog: Cog, truck: TruckSpec)
    requires truck.cargoWidthCm > 0 && truck.cargoDepthCm > 0
    ensures CheckStability(cog, truck) <==>
      (0.35 * truck.cargoWidthCm as real < cog.x < 0.65 * truck.cargoWidthCm as real
       && 0.35 * truck.cargoDepthCm as real < cog.z < 0.65 * truck.cargoDepthCm as real)
  {
    var cx := truck.cargoWidthCm as real / 2.0;
    var cz := truck.cargoDepthCm as real / 2.0;
    DeviationBelow(cog.x, cx);
    DeviationBelow(cog.z, cz);
  }

  lemma DeviationBelow(v: real, c: real)
    requires c > 0.0
    ensures AbsReal(v - c) / c < 0.3 <==> 0.7 * c < v < 1.3 * c
  {
    var d := AbsReal(v - c);
    var q := d / c;
    assert q * c == d;
    var a := 0.3 - q;
    assert a * c == 0.3 * c - d;
    PositiveFactor(a, c);
    assert a > 0.0 <==> 0.3 * c - d > 0.0;
    assert d < 0.3 * c <==> 0.7 * c < v < 1.3 * c;
  }

  lemma PositiveFactor(a: real, w: real)
    requires w > 0.0
    ensures a > 0.0 <==> a * w > 0.0
  {
  }

  /** An empty load reports its centre of gravity at the origin corner, which
      is never balanced. */
  lemma EmptyLoadUnbalanced(truck: TruckSpec)
    requires ValidTruck(truck)
    ensures !CheckStability(CogOf([], truck), truck)
  {
    StabilityWindow(CogOf([], truck), truck);
  }

  // ---------------------------------------------------------------------
  // Loading sequence, warnings and the plan

  datatype SequenceStep = SequenceStep(step: int, sku: string, description: string, position: Position)

  /** Steps numbered from 1 in placement order (the list is not reversed). */
  function LoadingSequence(ps: seq<PlacedItem>): (r: seq<SequenceStep>)
    ensures |r| == |ps|
    ensures forall i :: 0 <= i < |ps| ==>
      r[i] == SequenceStep(i + 1, ps[i].item.sku, ps[i].item.description, ps[i].position)
  {
    seq(|ps|, i requires 0 <= i < |ps| =>
      SequenceStep(i + 1, ps[i].item.sku, ps[i].item.description, ps[i].position))
  }

  const UnstableWarning := "Weight distribution may affect vehicle stability"
  const LowVolumeWarning := "Low volume utilization - consider consolidation"
  const NoSpaceReason := "No space available"

  function UnfitWarning(n: nat): string
  {
    NatToString(n) + " item(s) could not fit"
  }

  /** The three warnings, each independent of the others, in a fixed order. */
  function Warnings(isStable: bool, unfittedCount: nat, volumeUtilization: real): (r: seq<string>)
    ensures (UnstableWarning in r) <==> !isStable
    ensures (UnfitWarning(unfittedCount) in r) <==> unfittedCount > 0
    ensures (LowVolumeWarning in r) <==> volumeUtilization < 0.6
    ensures |r| == (if isStable then 0 else 1) + (if unfittedCount > 0 then 1 else 0)
                   + (if volumeUtilization < 0.6 then 1 else 0)
    ensures !isStable ==> r[0] == UnstableWarning
    ensures volumeUtilization < 0.6 ==> r[|r| - 1] == LowVolumeWarning
  {
    var w := UnfitWarning(unfittedCount);
    assert w[|w| - 1] == 't';
    assert UnstableWarning != LowVolumeWarning;
    assert w != UnstableWarning && w != LowVolumeWarning by {
      assert UnstableWarning[|UnstableWarning| - 1] == 'y';
      assert LowVolumeWarning[|LowVolumeWarning| - 1] == 'n';
    }
    (if !isStable then [UnstableWarning] else [])
    + (if unfittedCount > 0 then [w] else [])
    + (if volumeUtilization < 0.6 then [LowVolumeWarning] else [])
  }

  datatype UnfitEntry = UnfitEntry(sku: string, reason: string)
  datatype Utilization = Utilization(volumeRate: real, weightRate: real, totalWeightKg: real, totalVolumeM3: real)
  datatype WeightDistribution = WeightDistribution(centerOfGravity: Cog, isBalanced: bool, frontWeightPct: real, rearWeightPct: real)
  datatype LoadPlan = LoadPlan(
    truckId: string,
    truckPlate: string,
    loadedItemsCount: nat,
    unfittedItemsCount: nat,
    items: seq<PlacedItem>,
    unfittedItems: seq<UnfitEntry>,
    utilization: Utilization,
    weightDistribution: WeightDistribution,
    loadingSequence: seq<SequenceStep>,
    warnings: seq<string>)

  function UnfitEntries(items: seq<CargoItem>): (r: seq<UnfitEntry>)
    ensures |r| == |items|
    ensures forall i :: 0 <= i < |items| ==> r[i].sku == items[i].sku && r[i].reason == NoSpaceReason
  {
    seq(|items|, i requires 0 <= i < |items| => UnfitEntry(items[i].sku, NoSpaceReason))
  }

  function VolumeUtilization(totalVolumeCm3: int, truck: TruckSpec): real
    requires ValidTruck(truck)
  {
    var truckVolumeM3 := (truck.cargoWidthCm * truck.cargoHeightCm * truck.cargoDepthCm) as real / 1000000.0;
    (totalVolumeCm3 as real / 1000000.0) / truckVolumeM3
  }

  /** The weight rate never exceeds 1, also after rounding to 3 decimals. */
  lemma WeightRateAtMostOne(totalWeight: real, truck: TruckSpec)
    requires ValidTruck(truck) && totalWeight <= truck.maxCapacityKg
    ensures totalWeight / truck.maxCapacityKg <= 1.0
    ensures Round(totalWeight / truck.maxCapacityKg, 3) <= 1.0
  {
    var c := truck.maxCapacityKg;
    assert totalWeight / c * c == totalWeight;
    RoundMonotone(totalWeight / c, 1.0, 3);
    RoundExact(1000, 3);
    assert 1000 as real / Pow10(3) as real == 1.0;
  }

  /** The placement loop, over the items in the order given. */
  method PlaceAll(truck: TruckSpec, items: seq<CargoItem>) returns (st: PackState)
    ensures st == Pack(truck, items)
  {
    var loaded: seq<PlacedItem> := [];
    var unfitted: seq<CargoItem> := [];
    var x, y, z := 0, 0, 0;
    var rowHeight, layerDepth := 0, 0;
    var totalWeight := 0.0;
    var totalVolume := 0;
    var i := 0;
    while i < |items|
      invariant 0 <= i <= |items|
      invariant PackState(x, y, z, rowHeight, layerDepth, totalWeight, totalVolume, loaded, unfitted)
             == Pack(truck, items[..i])
    {
      var item := items[i];
      assert items[..i + 1][..i] == items[..i];
      if totalWeight + item.weightKg > truck.maxCapacityKg {
        unfitted := unfitted + [item];
      } else {
        var fits := true;
        if x + item.widthCm <= truck.cargoWidthCm {
        } else if z + layerDepth + item.lengthCm <= truck.cargoDepthCm {
          x := 0;
          z := z + layerDepth;
          layerDepth := 0;
        } else if y + rowHeight + item.heightCm <= truck.cargoHeightCm {
          x := 0;
          y := y + rowHeight;
          z := 0;
          rowHeight := 0;
          layerDepth := 0;
        } else {
          fits := false;
          unfitted := unfitted + [item];
        }
        if fits {
          loaded := loaded + [PlacedItem(item, Position(x, y, z),
                                         Dimensions(item.widthCm, item.heightCm, item.lengthCm), false)];
          x := x + item.widthCm;
          rowHeight := MaxInt(rowHeight, item.heightCm);
          layerDepth := MaxInt(layerDepth, item.lengthCm);
          totalWeight := totalWeight + item.weightKg;
          totalVolume := totalVolume + item.volumeCm3;
        }
      }
      i := i + 1;
    }
    assert items[..i] == items;
    st := PackState(x, y, z, rowHeight, layerDepth, totalWeight, totalVolume, loaded, unfitted);
  }

  /** The plan as reported from the measured figures: truck, counts,
      boxes, unfitted entries, utilisation rounded as the source rounds it,
      weight distribution, loading sequence and warnings. */
  function Report(truck: TruckSpec, loaded: seq<PlacedItem>, unfitted: seq<CargoItem>, weight: real, volume: int,
                  cog: Cog): LoadPlan
    requires ValidTruck(truck)
  {
    var volumeUtilization := VolumeUtilization(volume, truck);
    var isStable := CheckStability(cog, truck);
    LoadPlan(
      truck.id, truck.plate, |loaded|, |unfitted|, loaded, UnfitEntries(unfitted),
      Utilization(Round(volumeUtilization, 3), Round(weight / truck.maxCapacityKg, 3),
                  Round(weight, 2), Round(volume as real / 1000000.0, 3)),
      WeightDistribution(cog, isStable, Round(cog.frontPct, 1), Round(cog.rearPct, 1)),
      LoadingSequence(loaded), Warnings(isStable, |unfitted|, volumeUtilization))
  }

  /** The plan for what the placement loop produced, measured from the
      placed boxes. */
  function PlanOf(truck: TruckSpec, st: PackState): LoadPlan
    requires ValidTruck(truck)
  {
    Report(truck, st.loaded, st.unfitted, SumWeight(st.loaded), SumVolume(st.loaded), CogOf(st.loaded, truck))
  }

  /** The plan for a list of items: sorted by volume, packed, reported. */
  function LoadPlanOf(truck: TruckSpec, items: seq<CargoItem>): LoadPlan
    requires ValidTruck(truck)
  {
    PlanOf(truck, Pack(truck, SortByVolume(items)))
  }

  /** The plan's counts and utilisation are measured from the placed
      boxes: the counts of the two lists add up to the number of items, and
      the weight and volume figures are the placed boxes' sums, rounded as
      reported, with a weight rate of at most 1. */
  lemma LoadPlanFigures(truck: TruckSpec, items: seq<CargoItem>)
    requires ValidTruck(truck)
    ensures var plan := LoadPlanOf(truck, items);
      var st := Pack(truck, SortByVolume(items));
      plan.truckId == truck.id && plan.truckPlate == truck.plate
      && plan.items == st.loaded && plan.unfittedItems == UnfitEntries(st.unfitted)
      && plan.loadedItemsCount == |plan.items| && plan.unfittedItemsCount == |plan.unfittedItems|
      && plan.loadedItemsCount + plan.unfittedItemsCount == |items|
      && plan.utilization == Utilization(
           Round(VolumeUtilization(SumVolume(st.loaded), truck), 3),
           Round(SumWeight(st.loaded) / truck.maxCapacityKg, 3),
           Round(SumWeight(st.loaded), 2), Round(SumVolume(st.loaded) as real / 1000000.0, 3))
      && plan.utilization.weightRate <= 1.0
  {
    var sorted := SortByVolume(items);
    var st := Pack(truck, sorted);
    var plan := LoadPlanOf(truck, items);
    assert plan == Report(truck, st.loaded, st.unfitted, SumWeight(st.loaded), SumVolume(st.loaded),
                          CogOf(st.loaded, truck));
    PackPartitions(truck, sorted);
    assert |sorted| == |items| by {
      assert |multiset(sorted)| == |multiset(items)|;
    }
    PackWithinBudget(truck, sorted);
    PackTotals(truck, sorted);
    WeightRateAtMostOne(SumWeight(st.loaded), truck);
    ReportUtilization(truck, st.loaded, st.unfitted, SumWeight(st.loaded), SumVolume(st.loaded),
                      CogOf(st.loaded, truck));
  }

  /** The reported utilisation rounds the given totals and their rates. */
  lemma ReportUtilization(truck: TruckSpec, loaded: seq<PlacedItem>, unfitted: seq<CargoItem>, weight: real,
                          volume: int, cog: Cog)
    requires ValidTruck(truck)
    ensures Report(truck, loaded, unfitted, weight, volume, cog).utilization
         == Utilization(Round(VolumeUtilization(volume, truck), 3), Round(weight / truck.maxCapacityKg, 3),
                        Round(weight, 2), Round(volume as real / 1000000.0, 3))
  {
  }

  /** The weight distribution, loading sequence and warnings of the plan
      are those of its placed boxes: the centre of gravity, its stability,
      the front/rear split rounded to one decimal, and the warnings for
      instability, unfitted items and low volume use. */
  lemma LoadPlanReport(truck: TruckSpec, items: seq<CargoItem>)
    requires ValidTruck(truck)
    ensures var plan := LoadPlanOf(truck, items);
      var cog := CogOf(plan.items, truck);
      plan.weightDistribution == WeightDistribution(cog, CheckStability(cog, truck),
                                                    Round(cog.frontPct, 1), Round(cog.rearPct, 1))
      && plan.loadingSequence == LoadingSequence(plan.items)
      && plan.warnings == Warnings(plan.weightDistribution.isBalanced, plan.unfittedItemsCount,
                                   VolumeUtilization(SumVolume(plan.items), truck))
  {
  }

  /** The boxes placed and the items left over are the items, the load is
      within capacity, and for non-negative dimensions the boxes are
      pairwise disjoint, in ascending layers, at non-negative positions. */
  lemma LoadPlanPacking(truck: TruckSpec, items: seq<CargoItem>)
    requires ValidTruck(truck)
    ensures var plan := LoadPlanOf(truck, items);
      multiset(Items(plan.items)) + multiset(Pack(truck, SortByVolume(items)).unfitted) == multiset(items)
      && SumWeight(plan.items) <= truck.maxCapacityKg
      && (AllNonNegativeDims(items) ==>
            PairwiseDisjoint(plan.items) && LayersAscend(plan.items)
            && forall i :: 0 <= i < |plan.items| ==> WellPlaced(plan.items[i]))
  {
    var sorted := SortByVolume(items);
    PackPartitions(truck, sorted);
    PackWithinBudget(truck, sorted);
    PackTotals(truck, sorted);
    if AllNonNegativeDims(items) {
      assert AllNonNegativeDims(sorted) by {
        forall k | 0 <= k < |sorted| ensures NonNegativeDims(sorted[k]) {
          assert sorted[k] in multiset(items);
        }
      }
      PackKeepsInv(truck, sorted);
    }
  }

  /** The service entry point: sort, place, measure and report. */
  method OptimizeLoading(truck: TruckSpec, items: seq<CargoItem>) returns (plan: LoadPlan)
    requires ValidTruck(truck)
    ensures plan == LoadPlanOf(truck, items)
  {
    var sorted := SortByVolume(items);
    var st := PlaceAll(truck, sorted);
    var loaded, unfitted, totalWeight, totalVolume := st.loaded, st.unfitted, st.totalWeight, st.totalVolume;
    PackTotals(truck, sorted);
    var cog := CenterOfGravity(loaded, truck);
    plan := Report(truck, loaded, unfitted, totalWeight, totalVolume, cog);
  }
}
