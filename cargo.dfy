// Cargo-to-truck compatibility: refrigerated cargo needs a refrigerated
// truck, hazardous cargo a hazmat tank, and a declared total above the
// high-value threshold an armored truck.

module Cargo {
  import opened ShipmentItems

  datatype TruckType = DryBox | Refrigerated | HazmatTank | Flatbed | Armored

  /** Declared value (MXN) above which an armored truck is required. */
  const HighValueThreshold: real := 500000.0

  predicate NeedsRefrigeration(items: seq<ShipmentItem>)
  {
    exists i :: 0 <= i < |items| && items[i].requiresRefrigeration
  }

  predicate HasHazmat(items: seq<ShipmentItem>)
  {
    exists i :: 0 <= i < |items| && items[i].isHazardous
  }

  /** Sum of declared value times quantity over the items. */
  function TotalDeclaredValue(items: seq<ShipmentItem>): real
  {
    if items == [] then 0.0
    else TotalDeclaredValue(items[..|items| - 1])
         + items[|items| - 1].declaredValue * items[|items| - 1].quantity as real
  }

  predicate IsHighValue(items: seq<ShipmentItem>)
  {
    TotalDeclaredValue(items) > HighValueThreshold
  }

  datatype CargoValidation = Success | Fail(errorMessage: string, requiredTruckType: TruckType)

  const ColdChainMessage := "Carga requiere cadena de frío. Asigne un camión Refrigerado."
  const HazmatMessage := "Carga contiene materiales peligrosos (HAZMAT). Asigne un camión HazmatTank."

  /** The source also embeds the total and the threshold, currency-formatted;
      that formatting is not modelled. */
  const HighValueMessage := "Valor declarado excede umbral de alto valor. Asigne un camión Blindado."

  /** Rules in order: refrigeration, hazmat, value; the first that fails
      decides the message and the required truck type. */
  function ValidateShipmentForTruck(items: seq<ShipmentItem>, truckType: TruckType): CargoValidation
  {
    if items == [] then Success
    else if NeedsRefrigeration(items) && truckType != Refrigerated then Fail(ColdChainMessage, Refrigerated)
    else if HasHazmat(items) && truckType != HazmatTank then Fail(HazmatMessage, HazmatTank)
    else if IsHighValue(items) && truckType != Armored
    then Fail(HighValueMessage, Armored)
    else Success
  }

  /** Priority: hazmat, then refrigeration, then value, else a dry box. */
  function DetermineRequiredTruckType(items: seq<ShipmentItem>): TruckType
  {
    if items == [] then DryBox
    else if HasHazmat(items) then HazmatTank
    else if NeedsRefrigeration(items) then Refrigerated
    else if IsHighValue(items) then Armored
    else DryBox
  }

  /** Validity is exactly: every requirement the cargo has names this truck. */
  lemma ValidIffRequirementsMet(items: seq<ShipmentItem>, t: TruckType)
    ensures ValidateShipmentForTruck(items, t).Success? <==>
      (NeedsRefrigeration(items) ==> t == Refrigerated)
      && (HasHazmat(items) ==> t == HazmatTank)
      && (IsHighValue(items) ==> t == Armored)
  {
    if items == [] {
      assert TotalDeclaredValue(items) == 0.0;
    }
  }

  /** A failure names the truck type of the first rule that fails. */
  lemma FailureNamesFirstBrokenRule(items: seq<ShipmentItem>, t: TruckType)
    ensures var r := ValidateShipmentForTruck(items, t);
      r.Fail? ==>
        (r.requiredTruckType == Refrigerated <==> NeedsRefrigeration(items) && t != Refrigerated)
        && (r.requiredTruckType == HazmatTank <==>
              !(NeedsRefrigeration(items) && t != Refrigerated) && HasHazmat(items) && t != HazmatTank)
        && (r.requiredTruckType == Armored <==>
              !(NeedsRefrigeration(items) && t != Refrigerated) && !(HasHazmat(items) && t != HazmatTank))
  {
  }

  /** No items: valid for every truck, and a dry box is enough. */
  lemma EmptyCargo(t: TruckType)
    ensures ValidateShipmentForTruck([], t) == Success
    ensures DetermineRequiredTruckType([]) == DryBox
  {
  }

  /** Standard cargo is valid on every truck type. */
  lemma StandardCargoFitsAnyTruck(items: seq<ShipmentItem>, t: TruckType)
    requires !NeedsRefrigeration(items) && !HasHazmat(items) && !IsHighValue(items)
    ensures ValidateShipmentForTruck(items, t) == Success
  {
  }

  /** The threshold is strict: a total of exactly 500,000 passes on a dry box. */
  lemma ThresholdIsStrict()
    ensures var items := [ShipmentItem(Common.None, "bullion", 2, 10.0, 10.0, 10.0, 10.0, 250000.0, false, false, false)];
      TotalDeclaredValue(items) == 500000.0 && ValidateShipmentForTruck(items, DryBox) == Success
  {
    var items := [ShipmentItem(Common.None, "bullion", 2, 10.0, 10.0, 10.0, 10.0, 250000.0, false, false, false)];
    assert items[..0] == [];
    assert !NeedsRefrigeration(items) && !HasHazmat(items);
  }

  /** Cargo that is both refrigerated and hazardous fits no truck. */
  lemma ColdHazmatFitsNoTruck(items: seq<ShipmentItem>, t: TruckType)
    requires NeedsRefrigeration(items) && HasHazmat(items)
    ensures ValidateShipmentForTruck(items, t).Fail?
  {
  }

  /** The determined type fails validation when a special requirement comes
      with high value. */
  lemma DeterminedTypeFailsWithHighValue(items: seq<ShipmentItem>)
    requires (NeedsRefrigeration(items) || HasHazmat(items)) && IsHighValue(items)
    ensures ValidateShipmentForTruck(items, DetermineRequiredTruckType(items)).Fail?
  {
    ValidIffRequirementsMet(items, DetermineRequiredTruckType(items));
  }

  /** With at most one special requirement the determined type is accepted. */
  lemma DeterminedTypeValidates(items: seq<ShipmentItem>)
    requires (if NeedsRefrigeration(items) then 1 else 0) + (if HasHazmat(items) then 1 else 0)
             + (if IsHighValue(items) then 1 else 0) <= 1
    ensures ValidateShipmentForTruck(items, DetermineRequiredTruckType(items)) == Success
  {
    ValidIffRequirementsMet(items, DetermineRequiredTruckType(items));
  }
}
