// Steps of route blueprints. Creating, updating and deleting a step keeps
// its route's step count and total transit time in step with the stored
// steps; reordering renumbers the listed steps 1, 2, 3, ... in list order;
// a step appended to a route takes the next number after the largest.

module RouteSteps {
  import opened Common
  import opened StableSort

  type Id = nat

  datatype RouteStepType = Origin | Intermediate | Destination

  /** Enum parsing by exact member name. */
  function ParseStepType(s: string): Option<RouteStepType>
  {
    if s == "Origin" then Some(Origin)
    else if s == "Intermediate" then Some(Intermediate)
    else if s == "Destination" then Some(Destination)
    else None
  }

  /** Transit times are TimeSpans, modelled as ticks. */
  datatype RouteBlueprint = RouteBlueprint(name: string, totalSteps: int, totalTransitTime: int, updatedAt: Option<int>)

  datatype RouteStep = RouteStep(
    id: Id, routeId: Id, locationId: Id, stepOrder: int, transitTime: int, stepType: RouteStepType,
    createdAt: int, updatedAt: Option<int>)

  datatype CreateStepRequest = CreateStepRequest(routeId: Id, locationId: Id, stepOrder: int, transitTime: int, stepType: string)

  datatype UpdateStepRequest = UpdateStepRequest(stepOrder: int, transitTime: int, stepType: string)

  datatype StepOutcome = Ok(step: RouteStep, message: string) | Failed(message: string)

  datatype Outcome = Done(message: string) | Refused(message: string)

  const RouteNotFound := "Ruta no encontrada"
  const StepNotFound := "Paso no encontrado"

  // ---------------------------------------------------------------------
  // Route totals

  /** Number of stored steps on route rid. */
  function CountOn(steps: seq<RouteStep>, rid: Id): nat
  {
    if steps == [] then 0
    else CountOn(steps[..|steps| - 1], rid) + (if steps[|steps| - 1].routeId == rid then 1 else 0)
  }

  /** Sum of the transit times of the stored steps on route rid. */
  function TimeOn(steps: seq<RouteStep>, rid: Id): int
  {
    if steps == [] then 0
    else TimeOn(steps[..|steps| - 1], rid) + (if steps[|steps| - 1].routeId == rid then steps[|steps| - 1].transitTime else 0)
  }

  /** Every route's totals agree with its stored steps. */
  ghost predicate Consistent(routes: map<Id, RouteBlueprint>, steps: seq<RouteStep>)
  {
    forall rid :: rid in routes ==>
      routes[rid].totalSteps == CountOn(steps, rid) && routes[rid].totalTransitTime == TimeOn(steps, rid)
  }

  lemma {:induction false} TotalsConcat(a: seq<RouteStep>, b: seq<RouteStep>, rid: Id)
    ensures CountOn(a + b, rid) == CountOn(a, rid) + CountOn(b, rid)
    ensures TimeOn(a + b, rid) == TimeOn(a, rid) + TimeOn(b, rid)
    decreases |b|
  {
    if b == [] {
      assert a + b == a;
    } else {
      var front := b[..|b| - 1];
      TotalsConcat(a, front, rid);
      assert (a + b)[..|a + b| - 1] == a + front;
    }
  }

  /** Removing step i takes it out of its own route's totals only. */
  lemma RemoveTotals(steps: seq<RouteStep>, i: nat, rid: Id)
    requires i < |steps|
    ensures CountOn(steps[..i] + steps[i + 1..], rid) == CountOn(steps, rid) - (if steps[i].routeId == rid then 1 else 0)
    ensures TimeOn(steps[..i] + steps[i + 1..], rid) == TimeOn(steps, rid) - (if steps[i].routeId == rid then steps[i].transitTime else 0)
  {
    assert steps == steps[..i] + [steps[i]] + steps[i + 1..];
    TotalsConcat(steps[..i] + [steps[i]], steps[i + 1..], rid);
    TotalsConcat(steps[..i], [steps[i]], rid);
    TotalsConcat(steps[..i], steps[i + 1..], rid);
    assert [steps[i]][..0] == [];
  }

  /** Replacing step i by a step on the same route keeps the count and
      moves the time by the difference. */
  lemma ReplaceTotals(steps: seq<RouteStep>, i: nat, x: RouteStep, rid: Id)
    requires i < |steps| && x.routeId == steps[i].routeId
    ensures CountOn(steps[i := x], rid) == CountOn(steps, rid)
    ensures TimeOn(steps[i := x], rid)
         == TimeOn(steps, rid) + (if x.routeId == rid then x.transitTime - steps[i].transitTime else 0)
  {
    assert steps == steps[..i] + [steps[i]] + steps[i + 1..];
    assert steps[i := x] == steps[..i] + [x] + steps[i + 1..];
    TotalsConcat(steps[..i] + [steps[i]], steps[i + 1..], rid);
    TotalsConcat(steps[..i], [steps[i]], rid);
    TotalsConcat(steps[..i] + [x], steps[i + 1..], rid);
    TotalsConcat(steps[..i], [x], rid);
    assert [steps[i]][..0] == [] && [x][..0] == [];
  }

  /** Appending a step adds it to its own route's totals only. */
  lemma AppendTotals(steps: seq<RouteStep>, x: RouteStep, rid: Id)
    ensures CountOn(steps + [x], rid) == CountOn(steps, rid) + (if x.routeId == rid then 1 else 0)
    ensures TimeOn(steps + [x], rid) == TimeOn(steps, rid) + (if x.routeId == rid then x.transitTime else 0)
  {
    assert (steps + [x])[..|steps|] == steps;
  }

  /** Index of the first stored step with the given id. */
  function IndexOf(steps: seq<RouteStep>, id: Id): (r: Option<nat>)
    ensures r.Some? ==> r.value < |steps| && steps[r.value].id == id
                        && forall j :: 0 <= j < r.value ==> steps[j].id != id
    ensures r.None? ==> forall j :: 0 <= j < |steps| ==> steps[j].id != id
  {
    if steps == [] then None
    else if steps[0].id == id then Some(0)
    else
      var rest := IndexOf(steps[1..], id);
      if rest.Some? then Some(rest.value + 1) else None
  }

  function NewStep(request: CreateStepRequest, id: Id, now: int): RouteStep
  {
    var parsed := ParseStepType(request.stepType);
    RouteStep(id, request.routeId, request.locationId, request.stepOrder, request.transitTime,
              if parsed.Some? then parsed.value else Intermediate, now, None)
  }

  function UpdatedStep(s: RouteStep, request: UpdateStepRequest, now: int): RouteStep
  {
    var parsed := ParseStepType(request.stepType);
    s.(stepOrder := request.stepOrder, transitTime := request.transitTime,
       stepType := if parsed.Some? then parsed.value else s.stepType, updatedAt := Some(now))
  }

  /** An unparsable step type means Intermediate on creation and the old
      type on update. */
  lemma StepTypeDefaults(request: CreateStepRequest, s: RouteStep, u: UpdateStepRequest, id: Id, now: int)
    requires ParseStepType(request.stepType).None? && ParseStepType(u.stepType).None?
    ensures NewStep(request, id, now).stepType == Intermediate
    ensures UpdatedStep(s, u, now).stepType == s.stepType
  {
  }

  // ---------------------------------------------------------------------
  // Reordering

  /** Whether a step with this id is stored on route rid. */
  predicate Known(steps: seq<RouteStep>, rid: Id, id: Id)
  {
    exists i :: 0 <= i < |steps| && steps[i].id == id && steps[i].routeId == rid
  }

  /** How many of the listed ids name a step of route rid. */
  function Matched(steps: seq<RouteStep>, rid: Id, ids: seq<Id>): nat
  {
    if ids == [] then 0
    else Matched(steps, rid, ids[..|ids| - 1]) + (if Known(steps, rid, ids[|ids| - 1]) then 1 else 0)
  }

  /** Sets the order of the route's step with this id. */
  function SetOrder(s: seq<RouteStep>, rid: Id, id: Id, order: int, now: int): (r: seq<RouteStep>)
    ensures |r| == |s|
  {
    seq(|s|, i requires 0 <= i < |s| =>
      if s[i].id == id && s[i].routeId == rid then s[i].(stepOrder := order, updatedAt := Some(now)) else s[i])
  }

  /** The steps after renumbering for the listed ids, one id at a time,
      counting from 1 and skipping unknown ids. */
  function Reordered(steps: seq<RouteStep>, rid: Id, ids: seq<Id>, now: int): (r: seq<RouteStep>)
    ensures |r| == |steps|
  {
    if ids == [] then steps
    else
      var front := ids[..|ids| - 1];
      var prev := Reordered(steps, rid, front, now);
      if Known(steps, rid, ids[|ids| - 1]) then SetOrder(prev, rid, ids[|ids| - 1], 1 + Matched(steps, rid, front), now)
      else prev
  }

  /** a and b hold, position by position, steps of the same route with the
      same transit time. */
  predicate SameRoutesAndTimes(a: seq<RouteStep>, b: seq<RouteStep>)
  {
    |a| == |b| && forall i :: 0 <= i < |a| ==> a[i].routeId == b[i].routeId && a[i].transitTime == b[i].transitTime
  }

  lemma {:induction false} SameRoutesAndTimesTotals(a: seq<RouteStep>, b: seq<RouteStep>, rid: Id)
    requires SameRoutesAndTimes(a, b)
    ensures CountOn(a, rid) == CountOn(b, rid) && TimeOn(a, rid) == TimeOn(b, rid)
    decreases |a|
  {
    if a != [] {
      SameRoutesAndTimesTotals(a[..|a| - 1], b[..|b| - 1], rid);
    }
  }

  lemma {:induction false} ReorderedKeepsRoutesAndTimes(steps: seq<RouteStep>, rid: Id, ids: seq<Id>, now: int)
    ensures SameRoutesAndTimes(Reordered(steps, rid, ids, now), steps)
    decreases |ids|
  {
    if ids != [] {
      ReorderedKeepsRoutesAndTimes(steps, rid, ids[..|ids| - 1], now);
    }
  }

  /** Renumbering changes only step numbers and timestamps, so every route
      keeps its step count and total transit time. */
  lemma ReorderedKeepsTotals(steps: seq<RouteStep>, rid: Id, ids: seq<Id>, now: int, q: Id)
    ensures CountOn(Reordered(steps, rid, ids, now), q) == CountOn(steps, q)
    ensures TimeOn(Reordered(steps, rid, ids, now), q) == TimeOn(steps, q)
  {
    ReorderedKeepsRoutesAndTimes(steps, rid, ids, now);
    SameRoutesAndTimesTotals(Reordered(steps, rid, ids, now), steps, q);
  }

  /** The number a step ends up with: its place among the known ids at the
      last mention of it, or its old number when it is not listed. */
  function FinalOrder(steps: seq<RouteStep>, rid: Id, ids: seq<Id>, x: RouteStep): int
  {
    if ids == [] then x.stepOrder
    else if ids[|ids| - 1] == x.id && x.routeId == rid then 1 + Matched(steps, rid, ids[..|ids| - 1])
    else FinalOrder(steps, rid, ids[..|ids| - 1], x)
  }

  predicate Touched(rid: Id, ids: seq<Id>, x: RouteStep)
  {
    x.routeId == rid && x.id in ids
  }

  /** Each step, element by element: a listed step of the route takes its
      final number and a fresh timestamp; every other step is unchanged. */
  lemma {:induction false} ReorderedElementwise(steps: seq<RouteStep>, rid: Id, ids: seq<Id>, now: int, k: nat)
    requires k < |steps|
    ensures Reordered(steps, rid, ids, now)[k]
         == if Touched(rid, ids, steps[k])
            then steps[k].(stepOrder := FinalOrder(steps, rid, ids, steps[k]), updatedAt := Some(now))
            else steps[k]
  {
    if ids != [] {
      var front := ids[..|ids| - 1];
      var last := ids[|ids| - 1];
      ReorderedElementwise(steps, rid, front, now, k);
      assert ids == front + [last];
      if last == steps[k].id && steps[k].routeId == rid {
        assert Known(steps, rid, last);
      }
    }
  }

  /** Unlisted steps and steps of other routes keep their number. */
  lemma {:induction false} UnlistedKeepOrder(steps: seq<RouteStep>, rid: Id, ids: seq<Id>, x: RouteStep)
    requires !Touched(rid, ids, x)
    ensures FinalOrder(steps, rid, ids, x) == x.stepOrder
  {
    if ids != [] {
      assert ids == ids[..|ids| - 1] + [ids[|ids| - 1]];
      UnlistedKeepOrder(steps, rid, ids[..|ids| - 1], x);
    }
  }

  lemma {:induction false} MatchedAllKnown(steps: seq<RouteStep>, rid: Id, ids: seq<Id>)
    requires forall id :: id in ids ==> Known(steps, rid, id)
    ensures Matched(steps, rid, ids) == |ids|
  {
    if ids != [] {
      var front := ids[..|ids| - 1];
      assert forall id :: id in front ==> id in ids;
      MatchedAllKnown(steps, rid, front);
    }
  }

  /** When the list names distinct steps of the route, the step at list
      position j is numbered j + 1. */
  lemma {:induction false} ListedNumberedInOrder(steps: seq<RouteStep>, rid: Id, ids: seq<Id>, j: nat, x: RouteStep)
    requires j < |ids| && x.id == ids[j] && x.routeId == rid
    requires forall a, b :: 0 <= a < b < |ids| ==> ids[a] != ids[b]
    requires forall id :: id in ids ==> Known(steps, rid, id)
    ensures FinalOrder(steps, rid, ids, x) == j + 1
  {
    var front := ids[..|ids| - 1];
    if j == |ids| - 1 {
      assert forall id :: id in front ==> id in ids;
      MatchedAllKnown(steps, rid, front);
    } else {
      assert ids[|ids| - 1] != x.id;
      assert forall id :: id in front ==> id in ids;
      ListedNumberedInOrder(steps, rid, front, j, x);
    }
  }

  // ---------------------------------------------------------------------
  // Listing and appending

  function StepsOn(steps: seq<RouteStep>, rid: Id): (r: seq<RouteStep>)
    ensures |r| == CountOn(steps, rid)
  {
    if steps == [] then []
    else StepsOn(steps[..|steps| - 1], rid) + (if steps[|steps| - 1].routeId == rid then [steps[|steps| - 1]] else [])
  }

  lemma {:induction false} StepsOnExactly(steps: seq<RouteStep>, rid: Id, x: RouteStep)
    ensures x in StepsOn(steps, rid) <==> x in steps && x.routeId == rid
  {
    if steps == [] {
      assert StepsOn(steps, rid) == [];
    } else {
      StepsOnExactly(steps[..|steps| - 1], rid, x);
      assert steps == steps[..|steps| - 1] + [steps[|steps| - 1]];
    }
  }

  /** Ascending by step order: the descending sort on its negation. */
  function OrderDescKey(s: RouteStep): real
  {
    -(s.stepOrder as real)
  }

  /** The route's steps in non-decreasing step order, ties in storage order. */
  function ByRoute(steps: seq<RouteStep>, rid: Id): seq<RouteStep>
  {
    SortDesc(StepsOn(steps, rid), OrderDescKey)
  }

  lemma ByRouteFacts(steps: seq<RouteStep>, rid: Id)
    ensures multiset(ByRoute(steps, rid)) == multiset(StepsOn(steps, rid))
    ensures var r := ByRoute(steps, rid); forall i, j :: 0 <= i < j < |r| ==> r[i].stepOrder <= r[j].stepOrder
  {
    SortDescIsSortedPermutation(StepsOn(steps, rid), OrderDescKey);
    var r := ByRoute(steps, rid);
    forall i, j | 0 <= i < j < |r| ensures r[i].stepOrder <= r[j].stepOrder {
      assert OrderDescKey(r[i]) >= OrderDescKey(r[j]);
    }
  }

  /** Largest step order on route rid, 0 when it has none. */
  function MaxOrder(steps: seq<RouteStep>, rid: Id): int
  {
    if steps == [] then 0
    else
      var front := steps[..|steps| - 1];
      var last := steps[|steps| - 1];
      if last.routeId != rid then MaxOrder(front, rid)
      else if CountOn(front, rid) == 0 then last.stepOrder
      else MaxInt(MaxOrder(front, rid), last.stepOrder)
  }

  /** The maximum bounds every step of the route and is attained when the
      route has steps. */
  lemma {:induction false} MaxOrderFacts(steps: seq<RouteStep>, rid: Id)
    ensures forall i :: 0 <= i < |steps| && steps[i].routeId == rid ==> steps[i].stepOrder <= MaxOrder(steps, rid)
    ensures CountOn(steps, rid) > 0 ==>
      exists i :: 0 <= i < |steps| && steps[i].routeId == rid && steps[i].stepOrder == MaxOrder(steps, rid)
    ensures CountOn(steps, rid) == 0 ==> MaxOrder(steps, rid) == 0
  {
    if steps != [] {
      var front := steps[..|steps| - 1];
      MaxOrderFacts(front, rid);
      var last := |steps| - 1;
      assert forall i :: 0 <= i < last ==> steps[i] == front[i];
      if steps[last].routeId == rid && CountOn(front, rid) > 0 {
        var i :| 0 <= i < |front| && front[i].routeId == rid && front[i].stepOrder == MaxOrder(front, rid);
        assert steps[i] == front[i];
      }
      if CountOn(front, rid) == 0 {
        NoneOnRoute(front, rid);
      }
    }
  }

  lemma {:induction false} NoneOnRoute(steps: seq<RouteStep>, rid: Id)
    requires CountOn(steps, rid) == 0
    ensures forall i :: 0 <= i < |steps| ==> steps[i].routeId != rid
  {
    if steps != [] {
      var front := steps[..|steps| - 1];
      NoneOnRoute(front, rid);
      assert forall i :: 0 <= i < |front| ==> steps[i] == front[i];
    }
  }

  /** The request an appended step is created from: the next number after
      the route's largest, and the route named by the call. */
  function AppendRequest(steps: seq<RouteStep>, rid: Id, request: CreateStepRequest): CreateStepRequest
  {
    CreateStepRequest(rid, request.locationId, MaxOrder(steps, rid) + 1, request.transitTime, request.stepType)
  }

  /** An appended step is numbered after every step of its route, and 1 on
      an empty route. */
  lemma AppendNumbersAfterAll(steps: seq<RouteStep>, rid: Id, request: CreateStepRequest)
    ensures var o := AppendRequest(steps, rid, request).stepOrder;
      (forall i :: 0 <= i < |steps| && steps[i].routeId == rid ==> steps[i].stepOrder < o)
      && (CountOn(steps, rid) == 0 ==> o == 1)
      && AppendRequest(steps, rid, request).routeId == rid
  {
    MaxOrderFacts(steps, rid);
  }

  // ---------------------------------------------------------------------
  // The service

  ghost predicate FreshId(steps: seq<RouteStep>, id: Id)
  {
    forall i :: 0 <= i < |steps| ==> steps[i].id != id
  }

  class RouteStepService {
    var routes: map<Id, RouteBlueprint>
    /** Stored steps in storage order. */
    var steps: seq<RouteStep>
    /** Number of completed saves. */
    var saves: nat

    constructor (routes0: map<Id, RouteBlueprint>, steps0: seq<RouteStep>)
      ensures routes == routes0 && steps == steps0 && saves == 0
    {
      routes := routes0;
      steps := steps0;
      saves := 0;
    }

    /** `newId` stands for the freshly generated GUID. */
    method Create(request: CreateStepRequest, newId: Id, now: int) returns (r: StepOutcome)
      requires FreshId(steps, newId)
      modifies this
      ensures request.routeId !in old(routes) ==>
        r == Failed(RouteNotFound) && routes == old(routes) && steps == old(steps) && saves == old(saves)
      ensures request.routeId in old(routes) ==>
        var route := old(routes)[request.routeId];
        steps == old(steps) + [NewStep(request, newId, now)]
        && routes == old(routes)[request.routeId := route.(totalSteps := route.totalSteps + 1,
                                                         totalTransitTime := route.totalTransitTime + request.transitTime,
                                                         updatedAt := Some(now))]
        && r == Ok(NewStep(request, newId, now), "Paso creado exitosamente") && saves == old(saves) + 1
      ensures Consistent(old(routes), old(steps)) ==> Consistent(routes, steps)
    {
      if request.routeId !in routes {
        return Failed(RouteNotFound);
      }
      var route := routes[request.routeId];
      var entity := NewStep(request, newId, now);
      steps := steps + [entity];
      route := route.(totalSteps := route.totalSteps + 1);
      route := route.(totalTransitTime := route.totalTransitTime + request.transitTime, updatedAt := Some(now));
      routes := routes[request.routeId := route];
      saves := saves + 1;
      r := Ok(entity, "Paso creado exitosamente");
      forall q | q in routes ensures routes[q].totalSteps == CountOn(steps, q) || !Consistent(old(routes), old(steps)) {
        AppendTotals(old(steps), entity, q);
      }
      forall q | q in routes ensures routes[q].totalTransitTime == TimeOn(steps, q) || !Consistent(old(routes), old(steps)) {
        AppendTotals(old(steps), entity, q);
      }
    }

    method Update(id: Id, request: UpdateStepRequest, now: int) returns (r: StepOutcome)
      modifies this
      ensures IndexOf(old(steps), id).None? ==>
        r == Failed(StepNotFound) && routes == old(routes) && steps == old(steps) && saves == old(saves)
      ensures IndexOf(old(steps), id).Some? ==>
        var i := IndexOf(old(steps), id).value;
        var s := old(steps)[i];
        var rid := s.routeId;
        steps == old(steps)[i := UpdatedStep(s, request, now)]
        && routes == (if rid in old(routes)
                      then old(routes)[rid := old(routes)[rid].(
                             totalTransitTime := old(routes)[rid].totalTransitTime - s.transitTime + request.transitTime,
                             updatedAt := Some(now))]
                      else old(routes))
        && r == Ok(UpdatedStep(s, request, now), "Paso actualizado exitosamente") && saves == old(saves) + 1
      ensures Consistent(old(routes), old(steps)) ==> Consistent(routes, steps)
    {
      var found := IndexOf(steps, id);
      if found.None? {
        return Failed(StepNotFound);
      }
      var i := found.value;
      var entity := steps[i];
      var oldTransitTime := entity.transitTime;
      entity := UpdatedStep(entity, request, now);
      steps := steps[i := entity];
      var rid := entity.routeId;
      if rid in routes {
        var route := routes[rid];
        route := route.(totalTransitTime := route.totalTransitTime - oldTransitTime + request.transitTime);
        route := route.(updatedAt := Some(now));
        routes := routes[rid := route];
      }
      saves := saves + 1;
      r := Ok(entity, "Paso actualizado exitosamente");
      forall q | q in routes ensures routes[q].totalSteps == CountOn(steps, q) || !Consistent(old(routes), old(steps)) {
        ReplaceTotals(old(steps), i, entity, q);
      }
      forall q | q in routes ensures routes[q].totalTransitTime == TimeOn(steps, q) || !Consistent(old(routes), old(steps)) {
        ReplaceTotals(old(steps), i, entity, q);
      }
    }

    method Delete(id: Id, now: int) returns (r: Outcome)
      modifies this
      ensures IndexOf(old(steps), id).None? ==>
        r == Refused(StepNotFound) && routes == old(routes) && steps == old(steps) && saves == old(saves)
      ensures IndexOf(old(steps), id).Some? ==>
        var i := IndexOf(old(steps), id).value;
        var s := old(steps)[i];
        var rid := s.routeId;
        steps == old(steps)[..i] + old(steps)[i + 1..]
        && routes == (if rid in old(routes)
                      then old(routes)[rid := old(routes)[rid].(
                             totalSteps := old(routes)[rid].totalSteps - 1,
                             totalTransitTime := old(routes)[rid].totalTransitTime - s.transitTime,
                             updatedAt := Some(now))]
                      else old(routes))
        && r == Done("Paso eliminado exitosamente") && saves == old(saves) + 1
      ensures Consistent(old(routes), old(steps)) ==> Consistent(routes, steps)
    {
      var found := IndexOf(steps, id);
      if found.None? {
        return Refused(StepNotFound);
      }
      var i := found.value;
      var entity := steps[i];
      var rid := entity.routeId;
      if rid in routes {
        var route := routes[rid];
        route := route.(totalSteps := route.totalSteps - 1);
        route := route.(totalTransitTime := route.totalTransitTime - entity.transitTime, updatedAt := Some(now));
        routes := routes[rid := route];
      }
      steps := steps[..i] + steps[i + 1..];
      saves := saves + 1;
      r := Done("Paso eliminado exitosamente");
      forall q | q in routes ensures routes[q].totalSteps == CountOn(steps, q) || !Consistent(old(routes), old(steps)) {
        RemoveTotals(old(steps), i, q);
      }
      forall q | q in routes ensures routes[q].totalTransitTime == TimeOn(steps, q) || !Consistent(old(routes), old(steps)) {
        RemoveTotals(old(steps), i, q);
      }
    }

    /** Always succeeds. The lookup table is built from the route's steps
        before the loop; a listed id it lacks is skipped without using up a
        number. */
    method ReorderSteps(rid: Id, stepIdsInOrder: seq<Id>, now: int) returns (r: Outcome)
      modifies this
      ensures steps == Reordered(old(steps), rid, stepIdsInOrder, now)
      ensures routes == old(routes) && saves == old(saves) + 1
      ensures r == Done("Pasos reordenados exitosamente")
      ensures Consistent(old(routes), old(steps)) ==> Consistent(routes, steps)
    {
      var table := steps;
      var order := 1;
      var k := 0;
      while k < |stepIdsInOrder|
        invariant 0 <= k <= |stepIdsInOrder|
        invariant steps == Reordered(table, rid, stepIdsInOrder[..k], now)
        invariant order == 1 + Matched(table, rid, stepIdsInOrder[..k])
        invariant routes == old(routes) && saves == old(saves)
      {
        var stepId := stepIdsInOrder[k];
        assert stepIdsInOrder[..k + 1][..k] == stepIdsInOrder[..k];
        if Known(table, rid, stepId) {
          steps := SetOrder(steps, rid, stepId, order, now);
          order := order + 1;
        }
        k := k + 1;
      }
      assert stepIdsInOrder[..k] == stepIdsInOrder;
      forall q | q in routes
        ensures CountOn(steps, q) == CountOn(table, q) && TimeOn(steps, q) == TimeOn(table, q)
      {
        ReorderedKeepsTotals(table, rid, stepIdsInOrder, now, q);
      }
      saves := saves + 1;
      r := Done("Pasos reordenados exitosamente");
    }

    function GetByRoute(rid: Id): seq<RouteStep>
      reads this
    {
      ByRoute(steps, rid)
    }

    /** Creates the step with the next number after the route's largest. */
    method AddStepToRoute(rid: Id, request: CreateStepRequest, newId: Id, now: int) returns (r: StepOutcome)
      requires FreshId(steps, newId)
      modifies this
      ensures var req := AppendRequest(old(steps), rid, request);
        (rid !in old(routes) ==>
           r == Failed(RouteNotFound) && steps == old(steps) && routes == old(routes) && saves == old(saves))
        && (rid in old(routes) ==>
              var route := old(routes)[rid];
              steps == old(steps) + [NewStep(req, newId, now)]
              && routes == old(routes)[rid := route.(totalSteps := route.totalSteps + 1,
                                                     totalTransitTime := route.totalTransitTime + request.transitTime,
                                                     updatedAt := Some(now))]
              && r == Ok(NewStep(req, newId, now), "Paso creado exitosamente") && saves == old(saves) + 1)
      ensures Consistent(old(routes), old(steps)) ==> Consistent(routes, steps)
    {
      var maxOrder := MaxOrder(steps, rid);
      var newRequest := CreateStepRequest(rid, request.locationId, maxOrder + 1, request.transitTime, request.stepType);
      r := Create(newRequest, newId, now);
    }
  }
}
