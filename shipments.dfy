// Shipment lifecycle: the status transition table, status updates that stamp
// delivery and publish webhook events, driver/truck assignment guarded by
// cargo compatibility, the unguarded general update, and the cargo type
// reported with exception events.

module Shipments {
  import opened Common
  import opened ShipmentItems
  import opened Cargo

  datatype ShipmentStatus =
    PendingApproval | Approved | Loaded | InTransit | AtHub | OutForDelivery | Delivered | Exception

  datatype ShipmentPriority = Normal | Urgent | Express

  datatype DriverStatus = Available | OnRoute | Inactive

  function StatusName(s: ShipmentStatus): string
  {
    match s
    case PendingApproval => "PendingApproval"
    case Approved => "Approved"
    case Loaded => "Loaded"
    case InTransit => "InTransit"
    case AtHub => "AtHub"
    case OutForDelivery => "OutForDelivery"
    case Delivered => "Delivered"
    case Exception => "Exception"
  }

  function TruckTypeName(t: TruckType): string
  {
    match t
    case DryBox => "DryBox"
    case Refrigerated => "Refrigerated"
    case HazmatTank => "HazmatTank"
    case Flatbed => "Flatbed"
    case Armored => "Armored"
  }

  function PriorityName(p: ShipmentPriority): string
  {
    match p
    case Normal => "Normal"
    case Urgent => "Urgent"
    case Express => "Express"
  }

  /** Enum parsing by exact member name: a status is found iff some member
      has that name, and it is that member. */
  function ParseStatus(s: string): (r: Option<ShipmentStatus>)
    ensures r.Some? ==> StatusName(r.value) == s
    ensures r.None? <==> forall st :: StatusName(st) != s
  {
    if s == "PendingApproval" then Some(PendingApproval)
    else if s == "Approved" then Some(Approved)
    else if s == "Loaded" then Some(Loaded)
    else if s == "InTransit" then Some(InTransit)
    else if s == "AtHub" then Some(AtHub)
    else if s == "OutForDelivery" then Some(OutForDelivery)
    else if s == "Delivered" then Some(Delivered)
    else if s == "Exception" then Some(Exception)
    else None
  }

  function ParsePriority(s: string): (r: Option<ShipmentPriority>)
    ensures r.Some? ==> PriorityName(r.value) == s
    ensures r.None? <==> forall p :: PriorityName(p) != s
  {
    if s == "Normal" then Some(Normal)
    else if s == "Urgent" then Some(Urgent)
    else if s == "Express" then Some(Express)
    else None
  }

  /** Parsing a status or priority name gives that member back. */
  lemma ParseInvertsName(st: ShipmentStatus, p: ShipmentPriority)
    ensures ParseStatus(StatusName(st)) == Some(st)
    ensures ParsePriority(PriorityName(p)) == Some(p)
  {
    var r := ParseStatus(StatusName(st));
    assert r.Some?;
    StatusNamesDistinct(r.value, st);
    var q := ParsePriority(PriorityName(p));
    assert q.Some?;
  }

  lemma StatusNamesDistinct(a: ShipmentStatus, b: ShipmentStatus)
    ensures StatusName(a) == StatusName(b) ==> a == b
  {
  }

  // ---------------------------------------------------------------------
  // Transition table

  /** The forward moves allowed from each state, in the table's order. */
  function Successors(s: ShipmentStatus): seq<ShipmentStatus>
  {
    match s
    case PendingApproval => [Approved, Exception]
    case Approved => [Loaded, Exception]
    case Loaded => [InTransit, Exception]
    case InTransit => [AtHub, OutForDelivery, Exception]
    case AtHub => [InTransit, OutForDelivery, Exception]
    case OutForDelivery => [Delivered, AtHub, Exception]
    case Delivered => [Exception]
    case Exception => []
  }

  function JoinNames(ss: seq<ShipmentStatus>): string
  {
    if ss == [] then ""
    else if |ss| == 1 then StatusName(ss[0])
    else StatusName(ss[0]) + ", " + JoinNames(ss[1..])
  }

  const InvalidTransitionPrefix := "Transición de estado inválida: "

  datatype TransitionCheck = Allowed | Rejected(errorMessage: string)

  function ValidateStatusTransition(current: ShipmentStatus, next: ShipmentStatus): TransitionCheck
  {
    if current == next then Allowed
    else if current == Exception then Allowed
    else if next !in Successors(current) then
      Rejected(InvalidTransitionPrefix + StatusName(current) + " → " + StatusName(next)
               + ". Estados válidos: " + JoinNames(Successors(current)))
    else Allowed
  }

  predicate CanMove(current: ShipmentStatus, next: ShipmentStatus)
  {
    ValidateStatusTransition(current, next).Allowed?
  }

  /** The table spelled out pair by pair. */
  lemma TransitionTable(c: ShipmentStatus, n: ShipmentStatus)
    ensures CanMove(c, n) <==>
      c == n || c == Exception || n == Exception
      || (c == PendingApproval && n == Approved)
      || (c == Approved && n == Loaded)
      || (c == Loaded && n == InTransit)
      || (c == InTransit && (n == AtHub || n == OutForDelivery))
      || (c == AtHub && (n == InTransit || n == OutForDelivery))
      || (c == OutForDelivery && (n == Delivered || n == AtHub))
  {
  }

  /** Staying put and recovering from Exception are always allowed; every
      state may enter Exception; Delivered may leave only to Exception. */
  lemma TransitionBasics(c: ShipmentStatus, n: ShipmentStatus)
    ensures CanMove(c, c) && CanMove(Exception, n) && CanMove(c, Exception)
    ensures CanMove(Delivered, n) <==> n == Delivered || n == Exception
  {
  }

  /** Rejection happens exactly off the table; its message opens with the
      fixed prefix and the two state names and closes with the allowed
      targets. */
  lemma RejectionMessage(c: ShipmentStatus, n: ShipmentStatus)
    ensures ValidateStatusTransition(c, n).Rejected? <==> c != n && c != Exception && n !in Successors(c)
    ensures ValidateStatusTransition(c, n).Rejected? ==>
      var m := ValidateStatusTransition(c, n).errorMessage;
      var head := InvalidTransitionPrefix + StatusName(c) + " → " + StatusName(n);
      var tail := JoinNames(Successors(c));
      |head| + |tail| <= |m| && m[..|head|] == head && m[|m| - |tail|..] == tail
  {
  }

  /** Progress phases of the non-exception workflow. */
  function Phase(s: ShipmentStatus): nat
  {
    match s
    case PendingApproval => 0
    case Approved => 1
    case Loaded => 2
    case InTransit => 3
    case AtHub => 3
    case OutForDelivery => 3
    case Delivered => 4
    case Exception => 0
  }

  /** A sequence of allowed moves that never enters Exception. */
  ghost predicate NormalWalk(w: seq<ShipmentStatus>)
  {
    (forall i :: 0 <= i < |w| ==> w[i] != Exception)
    && (forall i :: 0 <= i < |w| - 1 ==> CanMove(w[i], w[i + 1]))
  }

  /** Outside Exception a move keeps the phase or advances it by one. */
  lemma StepPhase(c: ShipmentStatus, n: ShipmentStatus)
    requires c != Exception && n != Exception && CanMove(c, n)
    ensures Phase(c) <= Phase(n) <= Phase(c) + 1
    ensures Phase(n) == 3 && Phase(c) == 2 ==> n == InTransit
    ensures n == Delivered && c != Delivered ==> c == OutForDelivery
  {
  }

  lemma {:induction false} WalkMonotone(w: seq<ShipmentStatus>, i: nat, j: nat)
    requires NormalWalk(w) && i <= j < |w|
    ensures Phase(w[i]) <= Phase(w[j])
    decreases j - i
  {
    if i < j {
      StepPhase(w[j - 1], w[j]);
      WalkMonotone(w, i, j - 1);
    }
  }

  /** Step k of w is where the walk first enters phase p, coming from p - 1. */
  ghost predicate EntersAt(w: seq<ShipmentStatus>, p: nat, k: int)
  {
    0 < k < |w| && Phase(w[k - 1]) + 1 == p && Phase(w[k]) == p
    && forall j :: 0 <= j < k ==> Phase(w[j]) < p
  }

  /** A walk that reaches phase p enters it from phase p - 1 at some step. */
  lemma {:induction false} EntersPhase(w: seq<ShipmentStatus>, p: nat) returns (k: int)
    requires NormalWalk(w) && |w| >= 1 && Phase(w[0]) < p <= Phase(w[|w| - 1])
    ensures EntersAt(w, p, k)
  {
    var front := w[..|w| - 1];
    var last := |w| - 1;
    assert NormalWalk(front);
    StepPhase(w[last - 1], w[last]);
    if Phase(w[last - 1]) >= p {
      k := EntersPhase(front, p);
      assert w[k - 1] == front[k - 1] && w[k] == front[k];
      assert forall j :: 0 <= j < k ==> w[j] == front[j];
    } else {
      k := last;
      forall j | 0 <= j < last ensures Phase(w[j]) < p {
        WalkMonotone(w, j, last - 1);
      }
    }
  }

  /** Without Exception, Delivered is reached from PendingApproval only by
      passing Approved, Loaded, InTransit and OutForDelivery, in that order. */
  lemma {:induction false} DeliveryPassesEveryStage(w: seq<ShipmentStatus>)
    requires NormalWalk(w) && |w| >= 1 && w[0] == PendingApproval && w[|w| - 1] == Delivered
    ensures exists a, b, c, d ::
              0 < a < b < c <= d < |w| - 1
              && w[a] == Approved && w[b] == Loaded && w[c] == InTransit && w[d] == OutForDelivery
  {
    var a := EntersPhase(w, 1);
    var b := EntersPhase(w, 2);
    var c := EntersPhase(w, 3);
    var e := EntersPhase(w, 4);
    StepPhase(w[c - 1], w[c]);
    StepPhase(w[e - 1], w[e]);
    assert a < b;
    assert b < c;
    assert c < e;
    var d := e - 1;
    assert w[a] == Approved && w[b] == Loaded && w[c] == InTransit && w[d] == OutForDelivery;
  }

  // ---------------------------------------------------------------------
  // Entities and events

  type Id = nat

  datatype Shipment = Shipment(
    trackingNumber: string, status: ShipmentStatus, priority: ShipmentPriority,
    declaredValue: Option<real>, assignedRouteId: Option<Id>, currentStepOrder: Option<int>,
    deliveryInstructions: Option<string>, truckId: Option<Id>, driverId: Option<Id>,
    wasQrScanned: bool, isDelayed: bool, scheduledDeparture: Option<int>,
    pickupWindowStart: Option<int>, pickupWindowEnd: Option<int>, estimatedArrival: Option<int>,
    assignedAt: Option<int>, deliveredAt: Option<int>, updatedAt: Option<int>)

  datatype LineItem = LineItem(shipmentId: Id, item: ShipmentItem)

  datatype WebhookEvent =
    | StatusChanged(shipmentId: Id, trackingNumber: string, previousStatus: string, newStatus: string, changedAt: int)
    | ShipmentException(shipmentId: Id, trackingNumber: string, cargoType: string, truckType: Option<string>)

  datatype Outcome = Ok(shipment: Shipment, message: string) | Failed(message: string)

  const NotFound := "Envío no encontrado"

  function ItemsOf(lines: seq<LineItem>, shipmentId: Id): (r: seq<ShipmentItem>)
    ensures |r| <= |lines|
  {
    if lines == [] then []
    else ItemsOf(lines[..|lines| - 1], shipmentId)
         + (if lines[|lines| - 1].shipmentId == shipmentId then [lines[|lines| - 1].item] else [])
  }

  /** Cargo type reported with an exception: refrigeration first, then
      hazmat, then a declared value above 500,000; a missing value is never
      high. */
  function CargoTypeOf(items: seq<ShipmentItem>, declaredValue: Option<real>): string
  {
    if NeedsRefrigeration(items) then "Perishable"
    else if HasHazmat(items) then "Hazmat"
    else if declaredValue.Some? && declaredValue.value > 500000.0 then "HighValue"
    else "Standard"
  }

  lemma CargoTypePriority(items: seq<ShipmentItem>, declaredValue: Option<real>)
    ensures var t := CargoTypeOf(items, declaredValue);
      (t == "Perishable" <==> NeedsRefrigeration(items))
      && (t == "Hazmat" <==> !NeedsRefrigeration(items) && HasHazmat(items))
      && (t == "HighValue" <==> !NeedsRefrigeration(items) && !HasHazmat(items)
                                && declaredValue.Some? && declaredValue.value > 500000.0)
      && (declaredValue.None? ==> t != "HighValue")
  {
  }

  /** The shipment after an accepted status change at time `now`. */
  function WithStatus(s: Shipment, newStatus: ShipmentStatus, now: int): Shipment
  {
    s.(status := newStatus, updatedAt := Some(now),
       deliveredAt := if newStatus == Delivered then Some(now) else s.deliveredAt)
  }

  /** Delivery is stamped exactly on a change to Delivered. */
  lemma WithStatusStampsDelivery(s: Shipment, newStatus: ShipmentStatus, now: int)
    ensures WithStatus(s, newStatus, now).status == newStatus
    ensures newStatus == Delivered ==> WithStatus(s, newStatus, now).deliveredAt == Some(now)
    ensures newStatus != Delivered ==> WithStatus(s, newStatus, now).deliveredAt == s.deliveredAt
  {
  }

  datatype UpdateRequest = UpdateRequest(
    assignedRouteId: Option<Id>, currentStepOrder: Option<int>, deliveryInstructions: Option<string>,
    priority: string, status: string, truckId: Option<Id>, driverId: Option<Id>,
    wasQrScanned: bool, isDelayed: bool, scheduledDeparture: Option<int>,
    pickupWindowStart: Option<int>, pickupWindowEnd: Option<int>, estimatedArrival: Option<int>,
    assignedAt: Option<int>, deliveredAt: Option<int>)

  /** The general update copies every field; an unparsable priority or status
      leaves the old one. */
  function Updated(s: Shipment, r: UpdateRequest, now: int): Shipment
  {
    var p := ParsePriority(r.priority);
    var st := ParseStatus(r.status);
    s.(assignedRouteId := r.assignedRouteId, currentStepOrder := r.currentStepOrder,
       deliveryInstructions := r.deliveryInstructions,
       priority := if p.Some? then p.value else s.priority,
       status := if st.Some? then st.value else s.status,
       truckId := r.truckId, driverId := r.driverId, wasQrScanned := r.wasQrScanned,
       isDelayed := r.isDelayed, scheduledDeparture := r.scheduledDeparture,
       pickupWindowStart := r.pickupWindowStart, pickupWindowEnd := r.pickupWindowEnd,
       estimatedArrival := r.estimatedArrival, assignedAt := r.assignedAt,
       deliveredAt := r.deliveredAt, updatedAt := Some(now))
  }

  /** The general update does not consult the transition table: a delivered
      shipment can be put back in transit. */
  lemma UpdateBypassesTable(s: Shipment, r: UpdateRequest, now: int)
    requires s.status == Delivered && r.status == "InTransit"
    ensures Updated(s, r, now).status == InTransit && !CanMove(Delivered, InTransit)
  {
  }

  /** Assignment approves unconditionally: from Delivered, which the table
      would only let go to Exception. */
  lemma AssignmentBypassesTable()
    ensures !CanMove(Delivered, Approved) && !CanMove(Loaded, Approved)
  {
  }

  class ShipmentService {
    var shipments: map<Id, Shipment>
    var drivers: map<Id, DriverStatus>
    var trucks: map<Id, TruckType>
    var lineItems: seq<LineItem>
    /** Webhook events in publication order. */
    var published: seq<WebhookEvent>
    /** Number of completed saves. */
    var saves: nat

    constructor (shipments0: map<Id, Shipment>, drivers0: map<Id, DriverStatus>, trucks0: map<Id, TruckType>,
                 lineItems0: seq<LineItem>)
      ensures shipments == shipments0 && drivers == drivers0 && trucks == trucks0 && lineItems == lineItems0
      ensures published == [] && saves == 0
    {
      shipments := shipments0;
      drivers := drivers0;
      trucks := trucks0;
      lineItems := lineItems0;
      published := [];
      saves := 0;
    }

    /** Validates the move, saves, then publishes the status change and, on
        a change to Exception, the exception event. */
    method UpdateStatus(shipmentId: Id, newStatus: ShipmentStatus, now: int) returns (r: Outcome)
      modifies this
      ensures drivers == old(drivers) && trucks == old(trucks) && lineItems == old(lineItems)
      ensures shipmentId !in old(shipments) ==>
        r == Failed(NotFound) && shipments == old(shipments) && published == old(published) && saves == old(saves)
      ensures shipmentId in old(shipments) && !CanMove(old(shipments)[shipmentId].status, newStatus) ==>
        r == Failed(ValidateStatusTransition(old(shipments)[shipmentId].status, newStatus).errorMessage)
        && shipments == old(shipments) && published == old(published) && saves == old(saves)
      ensures shipmentId in old(shipments) && CanMove(old(shipments)[shipmentId].status, newStatus) ==>
        var s := old(shipments)[shipmentId];
        var s' := WithStatus(s, newStatus, now);
        shipments == old(shipments)[shipmentId := s'] && saves == old(saves) + 1
        && r == Ok(s', "Estado actualizado a " + StatusName(newStatus))
        && published == old(published)
           + [StatusChanged(shipmentId, s.trackingNumber, StatusName(s.status), StatusName(newStatus), now)]
           + (if newStatus == Exception then [ExceptionEvent(shipmentId, s')] else [])
    {
      if shipmentId !in shipments {
        return Failed(NotFound);
      }
      var entity := shipments[shipmentId];
      var previous := entity.status;
      var check := ValidateStatusTransition(previous, newStatus);
      if !check.Allowed? {
        return Failed(check.errorMessage);
      }
      entity := entity.(status := newStatus, updatedAt := Some(now));
      if newStatus == Delivered {
        entity := entity.(deliveredAt := Some(now));
      }
      shipments := shipments[shipmentId := entity];
      saves := saves + 1;
      published := published + [StatusChanged(shipmentId, entity.trackingNumber, StatusName(previous),
                                               StatusName(newStatus), now)];
      if newStatus == Exception {
        published := published + [ExceptionEvent(shipmentId, entity)];
      }
      r := Ok(entity, "Estado actualizado a " + StatusName(newStatus));
    }

    /** The exception event for a shipment: cargo type from its items and
        declared value, truck type when its truck is known. */
    function ExceptionEvent(shipmentId: Id, s: Shipment): WebhookEvent
      reads this
    {
      var truckType := if s.truckId.Some? && s.truckId.value in trucks
                       then Some(TruckTypeName(trucks[s.truckId.value])) else None;
      ShipmentException(shipmentId, s.trackingNumber, CargoTypeOf(ItemsOf(lineItems, shipmentId), s.declaredValue),
                        truckType)
    }

    /** Requires an available driver, a known truck and compatible cargo;
        then assigns both and sets Approved without consulting the table. */
    method AssignToDriver(shipmentId: Id, driverId: Id, truckId: Id, now: int) returns (r: Outcome)
      modifies this
      ensures drivers == old(drivers) && trucks == old(trucks) && lineItems == old(lineItems)
      ensures published == old(published)
      ensures r.Failed? ==> shipments == old(shipments) && saves == old(saves)
      ensures shipmentId !in old(shipments) ==> r == Failed(NotFound)
      ensures shipmentId in old(shipments) && (driverId !in drivers || drivers[driverId] != Available) ==>
        r == Failed("Chofer no encontrado o no disponible")
      ensures (shipmentId in old(shipments) && driverId in drivers && drivers[driverId] == Available
               && truckId !in trucks) ==> r == Failed("Camión no encontrado")
    ensures (shipmentId in old(shipments) && driverId in drivers && drivers[driverId] == Available
             && truckId in trucks) ==>
      var v := ValidateShipmentForTruck(ItemsOf(lineItems, shipmentId), trucks[truckId]);
      v.Fail? ==> r == Failed(v.errorMessage + " (Requerido: " + TruckTypeName(v.requiredTruckType)
                              + ", Asignado: " + TruckTypeName(trucks[truckId]) + ")")
      ensures r.Ok? <==>
        shipmentId in old(shipments) && driverId in drivers && drivers[driverId] == Available && truckId in trucks
        && ValidateShipmentForTruck(ItemsOf(lineItems, shipmentId), trucks[truckId]).Success?
      ensures r.Ok? ==>
        var s' := old(shipments)[shipmentId].(driverId := Some(driverId), truckId := Some(truckId),
                                              assignedAt := Some(now), status := Approved, updatedAt := Some(now));
        shipments == old(shipments)[shipmentId := s'] && r.shipment == s' && saves == old(saves) + 1
    {
      if shipmentId !in shipments {
        return Failed(NotFound);
      }
      if driverId !in drivers || drivers[driverId] != Available {
        return Failed("Chofer no encontrado o no disponible");
      }
      if truckId !in trucks {
        return Failed("Camión no encontrado");
      }
      var truckType := trucks[truckId];
      var validation := ValidateShipmentForTruck(ItemsOf(lineItems, shipmentId), truckType);
      if validation.Fail? {
        return Failed(validation.errorMessage + " (Requerido: " + TruckTypeName(validation.requiredTruckType)
                      + ", Asignado: " + TruckTypeName(truckType) + ")");
      }
      var entity := shipments[shipmentId];
      entity := entity.(driverId := Some(driverId), truckId := Some(truckId), assignedAt := Some(now),
                        status := Approved, updatedAt := Some(now));
      shipments := shipments[shipmentId := entity];
      saves := saves + 1;
      r := Ok(entity, "Envío asignado exitosamente");
    }

    method Update(shipmentId: Id, request: UpdateRequest, now: int) returns (r: Outcome)
      modifies this
      ensures drivers == old(drivers) && trucks == old(trucks) && lineItems == old(lineItems)
      ensures published == old(published)
      ensures shipmentId !in old(shipments) ==> r == Failed(NotFound) && shipments == old(shipments) && saves == old(saves)
      ensures shipmentId in old(shipments) ==>
        shipments == old(shipments)[shipmentId := Updated(old(shipments)[shipmentId], request, now)]
        && r == Ok(shipments[shipmentId], "Envío actualizado exitosamente") && saves == old(saves) + 1
    {
      if shipmentId !in shipments {
        return Failed(NotFound);
      }
      var entity := Updated(shipments[shipmentId], request, now);
      shipments := shipments[shipmentId := entity];
      saves := saves + 1;
      r := Ok(entity, "Envío actualizado exitosamente");
    }
  }
}
