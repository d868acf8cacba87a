// A shipment line item: its dimensions in centimetres, quantity, declared
// value and handling flags, and the unit conversions derived from them.

module ShipmentItems {
  import opened Common

  datatype ShipmentItem = ShipmentItem(
    sku: Option<string>, description: string, quantity: int,
    weightKg: real, widthCm: real, heightCm: real, lengthCm: real,
    declaredValue: real, isFragile: bool, isHazardous: bool, requiresRefrigeration: bool)

  const CubicCmPerCubicMetre: real := 1000000.0
  const DefaultDimensionalFactor: real := 5000.0

  /** Volume in cubic metres. */
  function VolumeM3(it: ShipmentItem): real
  {
    (it.widthCm * it.heightCm * it.lengthCm) / CubicCmPerCubicMetre
  }

  /** Volumetric weight used for quoting: cubic centimetres over 5000. */
  function VolumetricWeightKg(it: ShipmentItem): real
  {
    (it.widthCm * it.heightCm * it.lengthCm) / DefaultDimensionalFactor
  }

  /** The service-level calculation with a caller-chosen factor; a zero
      factor raises a division error, modelled as None. */
  function CalculateVolumetricWeight(widthCm: real, heightCm: real, lengthCm: real, factor: real): Option<real>
  {
    if factor == 0.0 then None else Some((widthCm * heightCm * lengthCm) / factor)
  }

  /** The two conversions agree: 200 kg of volumetric weight per cubic metre. */
  lemma VolumetricWeightIsTwoHundredPerCubicMetre(it: ShipmentItem)
    ensures VolumetricWeightKg(it) == 200.0 * VolumeM3(it)
  {
    var v := it.widthCm * it.heightCm * it.lengthCm;
    assert v / 5000.0 == 200.0 * (v / 1000000.0);
  }

  /** With the default factor the service computes the entity's value. */
  lemma DefaultFactorMatchesEntity(it: ShipmentItem)
    ensures CalculateVolumetricWeight(it.widthCm, it.heightCm, it.lengthCm, DefaultDimensionalFactor)
         == Some(VolumetricWeightKg(it))
  {
    var w, h, l := it.widthCm, it.heightCm, it.lengthCm;
    assert CalculateVolumetricWeight(w, h, l, DefaultDimensionalFactor).value == (w * h * l) / 5000.0;
    assert VolumetricWeightKg(it) == (w * h * l) / 5000.0;
  }

  /** Non-negative dimensions give non-negative volume and volumetric weight. */
  lemma ConversionsNonNegative(it: ShipmentItem)
    requires it.widthCm >= 0.0 && it.heightCm >= 0.0 && it.lengthCm >= 0.0
    ensures VolumeM3(it) >= 0.0 && VolumetricWeightKg(it) >= 0.0
  {
    var wh := it.widthCm * it.heightCm;
    assert wh >= 0.0;
    assert wh * it.lengthCm >= 0.0;
  }

  /** Volume and volumetric weight vanish exactly when some dimension is zero. */
  lemma ZeroIffSomeDimensionZero(it: ShipmentItem)
    ensures VolumeM3(it) == 0.0 <==> (it.widthCm == 0.0 || it.heightCm == 0.0 || it.lengthCm == 0.0)
    ensures VolumetricWeightKg(it) == 0.0 <==> (it.widthCm == 0.0 || it.heightCm == 0.0 || it.lengthCm == 0.0)
  {
    var wh := it.widthCm * it.heightCm;
    assert wh == 0.0 <==> (it.widthCm == 0.0 || it.heightCm == 0.0);
    assert wh * it.lengthCm == 0.0 <==> (wh == 0.0 || it.lengthCm == 0.0);
  }

  /** A product of three non-negative factors grows with each factor. */
  lemma ProductMonotone(w: real, h: real, l: real, w': real, h': real, l': real)
    requires 0.0 <= w <= w' && 0.0 <= h <= h' && 0.0 <= l <= l'
    ensures w * h * l <= w' * h' * l'
  {
    assert w * h <= w' * h by {
      assert (w' - w) * h >= 0.0;
    }
    assert w' * h <= w' * h' by {
      assert w' * (h' - h) >= 0.0;
    }
    assert w * h >= 0.0;
    assert w * h * l <= w' * h' * l by {
      assert (w' * h' - w * h) * l >= 0.0;
    }
    assert w' * h' * l <= w' * h' * l' by {
      assert w' * h' >= 0.0;
      assert (w' * h') * (l' - l) >= 0.0;
    }
  }

  /** Enlarging any dimension of a box never shrinks its volume or its
      volumetric weight. */
  lemma ConversionsMonotone(a: ShipmentItem, b: ShipmentItem)
    requires 0.0 <= a.widthCm <= b.widthCm
    requires 0.0 <= a.heightCm <= b.heightCm
    requires 0.0 <= a.lengthCm <= b.lengthCm
    ensures VolumeM3(a) <= VolumeM3(b)
    ensures VolumetricWeightKg(a) <= VolumetricWeightKg(b)
  {
    ProductMonotone(a.widthCm, a.heightCm, a.lengthCm, b.widthCm, b.heightCm, b.lengthCm);
  }

  /** A 50 x 40 x 30 cm box: 0.06 cubic metres and 12 kg volumetric. */
  lemma ConversionExample()
    ensures var it := ShipmentItem(None, "box", 1, 5.0, 50.0, 40.0, 30.0, 0.0, false, false, false);
      VolumeM3(it) == 0.06 && VolumetricWeightKg(it) == 12.0
  {
  }
}
