/**
 * The price estimator (src/lib/pricing.ts): a straight chain from the mesh
 * volume to grams of material, a per-item price floored at the minimum, and an
 * order total in which the base fee is charged once.
 *
 * Numbers are reals; `Number(x.toFixed(d))` is modelled exactly as rounding to
 * d decimals with halves away from zero, without the binary floating-point
 * representation error of the original.
 */
module Pricing {
  import opened Geometry
  import opened Materials

  datatype PriceEstimate = PriceEstimate(
    volumeMm3Each: real,
    gramsEach: real,
    priceUsdEach: real,
    totalPriceUsd: real)

  function Max(a: real, b: real): (r: real)
    ensures r >= a && r >= b && (r == a || r == b)
  {
    if a >= b then a else b
  }

  // ---------------------------------------------------------------------------
  // Rounding

  /** Rounds |x| to a multiple of 1/unit (halves up) and restores the sign. */
  function RoundTo(x: real, unit: real): real
    requires unit > 0.0
  {
    if x >= 0.0 then (unit * x + 0.5).Floor as real / unit
    else -((unit * -x + 0.5).Floor as real / unit)
  }

  /** `Number(x.toFixed(2))`. */
  function Round2(x: real): real {
    RoundTo(x, 100.0)
  }

  /** `Number(x.toFixed(1))`. */
  function Round1(x: real): real {
    RoundTo(x, 10.0)
  }

  /** x is a whole number of cents. */
  predicate WholeCents(x: real) {
    (100.0 * x).Floor as real == 100.0 * x
  }

  /** Rounding to cents moves a value by at most half a cent and lands on whole cents. */
  lemma Round2Bounds(x: real)
    ensures -0.005 <= Round2(x) - x <= 0.005
    ensures WholeCents(Round2(x))
  {
    if x >= 0.0 {
      var k := (100.0 * x + 0.5).Floor;
      assert 100.0 * Round2(x) == k as real;
    } else {
      var k := (100.0 * -x + 0.5).Floor;
      assert 100.0 * Round2(x) == (-k) as real;
    }
  }

  /** Rounding to tenths moves a non-negative value by at most 0.05. */
  lemma Round1Bounds(x: real)
    requires x >= 0.0
    ensures -0.05 <= Round1(x) - x <= 0.05
    ensures Round1(x) >= 0.0
  {
  }

  /** Rounding leaves a whole number of cents unchanged. */
  lemma Round2OfWholeCents(x: real)
    requires WholeCents(x)
    ensures Round2(x) == x
  {
    var k := (100.0 * x).Floor;
    if x >= 0.0 {
      assert (100.0 * x + 0.5).Floor == k;
    } else {
      assert (100.0 * -x + 0.5).Floor == -k;
    }
  }

  /** Rounding to cents is monotone. */
  lemma Round2Monotone(x: real, y: real)
    requires x <= y
    ensures Round2(x) <= Round2(y)
  {
    if x >= 0.0 {
      assert (100.0 * x + 0.5).Floor <= (100.0 * y + 0.5).Floor;
    } else if y >= 0.0 {
      assert Round2(x) <= 0.0;
    } else {
      assert (100.0 * -y + 0.5).Floor <= (100.0 * -x + 0.5).Floor;
    }
  }

  lemma WholeCentsSum(a: real, b: real)
    requires WholeCents(a) && WholeCents(b)
    ensures WholeCents(a + b)
  {
    var ka, kb := (100.0 * a).Floor, (100.0 * b).Floor;
    assert 100.0 * (a + b) == (ka + kb) as real;
  }

  /** n whole items at a whole-cent price cost a whole number of cents. */
  lemma {:induction false} WholeCentsTimesNat(p: real, n: nat)
    requires WholeCents(p)
    ensures WholeCents(Times(n as real, p))
    decreases n
  {
    if n == 0 {
      assert Times(n as real, p) == 0.0;
    } else {
      WholeCentsTimesNat(p, n - 1);
      assert Times(n as real, p) == Times((n - 1) as real, p) + p;
      WholeCentsSum(Times((n - 1) as real, p), p);
    }
  }

  // ---------------------------------------------------------------------------
  // The estimate

  /** Volume of one item after uniform scaling: base volume times max(0, scale)^3. */
  function ScaledVolume(baseVolumeMm3: real, scale: real): real {
    Times(Cube(Max(0.0, scale)), baseVolumeMm3)
  }

  /** Grams of one item before the clamp at zero: cm^3 times density, fill factor and handling. */
  function GramsRaw(volumeMm3Each: real, material: MaterialId, quality: PrintQuality): real {
    volumeMm3Each / 1000.0 * MaterialOf(material).densityGCm3 * QualityFillFactor(quality) * HandlingMultiplier
  }

  function PriceByWeight(grams: real, material: MaterialId, quality: PrintQuality): real {
    grams * MaterialOf(material).rateUsdPerGram * QualityMultiplier(quality)
  }

  /** The per-item price: the weight price in cents, but never below the minimum. */
  function UnitPrice(grams: real, material: MaterialId, quality: PrintQuality): (r: real)
    ensures r >= MinimumPriceUsd
    ensures WholeCents(r)
  {
    Round2Bounds(PriceByWeight(grams, material, quality));
    assert WholeCents(MinimumPriceUsd) by {
      assert 100.0 * MinimumPriceUsd == 500.0;
    }
    Max(MinimumPriceUsd, Round2(PriceByWeight(grams, material, quality)))
  }

  /** The order total: the base fee once plus the per-item price for at least one item, in cents. */
  function OrderTotal(priceEach: real, quantity: real): (r: real)
    ensures WholeCents(r)
  {
    Round2Bounds(BaseFeeUsd + Times(Max(1.0, quantity), priceEach));
    Round2(BaseFeeUsd + Times(Max(1.0, quantity), priceEach))
  }

  /** `estimatePrice` once the base volume of the geometry is known. */
  function EstimateFromVolume(baseVolumeMm3: real, material: MaterialId, quality: PrintQuality, scale: real, quantity: real): (r: PriceEstimate)
    ensures r.priceUsdEach >= MinimumPriceUsd && WholeCents(r.priceUsdEach)
    ensures WholeCents(r.totalPriceUsd)
    ensures r.gramsEach >= 0.0
    ensures baseVolumeMm3 >= 0.0 ==> r.volumeMm3Each >= 0.0
    ensures r.totalPriceUsd == OrderTotal(r.priceUsdEach, quantity)
  {
    ScaledVolumeNonNegative(baseVolumeMm3, scale);
    var volumeMm3Each := ScaledVolume(baseVolumeMm3, scale);
    var gramsEach := Max(0.0, GramsRaw(volumeMm3Each, material, quality));
    var priceEach := UnitPrice(gramsEach, material, quality);
    Round1Bounds(gramsEach);
    PriceEstimate(volumeMm3Each, Round1(gramsEach), priceEach, OrderTotal(priceEach, quantity))
  }

  /** `estimatePrice(geometry, material, quality, scale, quantity)`. */
  function EstimatePrice(geometry: BufferGeometry, material: MaterialId, quality: PrintQuality, scale: real, quantity: real): (r: PriceEstimate)
    requires Readable(geometry)
    ensures r.volumeMm3Each >= 0.0
    ensures r.priceUsdEach >= MinimumPriceUsd
  {
    EstimateFromVolume(GeometryVolume(geometry), material, quality, scale, quantity)
  }

  /** A non-negative base volume stays non-negative at any scale. */
  lemma ScaledVolumeNonNegative(baseVolumeMm3: real, scale: real)
    ensures baseVolumeMm3 >= 0.0 ==> ScaledVolume(baseVolumeMm3, scale) >= 0.0
  {
    CubeOfNonNegative(Max(0.0, scale));
    if baseVolumeMm3 >= 0.0 {
      TimesMonotone(Cube(Max(0.0, scale)), 0.0, baseVolumeMm3);
    }
  }

  lemma CubeOfNonNegative(s: real)
    requires s >= 0.0
    ensures Cube(s) >= 0.0
  {
    assert s * s >= 0.0;
  }

  // ---------------------------------------------------------------------------
  // Properties

  /**
   * For a whole quantity q >= 1 the total is exactly base fee + q x unit price:
   * the base fee is charged once and the final rounding changes nothing,
   * because the unit price is already a whole number of cents.
   */
  lemma TotalChargesBaseFeeOnce(baseVolumeMm3: real, material: MaterialId, quality: PrintQuality, scale: real, q: int)
    requires q >= 1
    ensures var r := EstimateFromVolume(baseVolumeMm3, material, quality, scale, q as real);
      r.totalPriceUsd == BaseFeeUsd + Times(q as real, r.priceUsdEach)
  {
    var r := EstimateFromVolume(baseVolumeMm3, material, quality, scale, q as real);
    OrderTotalOfWholeQuantity(r.priceUsdEach, q);
  }

  lemma OrderTotalOfWholeQuantity(p: real, q: int)
    requires WholeCents(p) && q >= 1
    ensures OrderTotal(p, q as real) == BaseFeeUsd + Times(q as real, p)
  {
    WholeCentsTimesNat(p, q);
    assert WholeCents(BaseFeeUsd) by {
      assert 100.0 * BaseFeeUsd == 300.0;
    }
    WholeCentsSum(BaseFeeUsd, Times(q as real, p));
    Round2OfWholeCents(BaseFeeUsd + Times(q as real, p));
    assert Max(1.0, q as real) == q as real;
  }

  /** A quantity below one is charged as a single item. */
  lemma QuantityBelowOneChargedAsOne(baseVolumeMm3: real, material: MaterialId, quality: PrintQuality, scale: real, quantity: real)
    requires quantity < 1.0
    ensures EstimateFromVolume(baseVolumeMm3, material, quality, scale, quantity)
         == EstimateFromVolume(baseVolumeMm3, material, quality, scale, 1.0)
    ensures var r := EstimateFromVolume(baseVolumeMm3, material, quality, scale, quantity);
      r.totalPriceUsd == BaseFeeUsd + r.priceUsdEach
  {
    var p := EstimateFromVolume(baseVolumeMm3, material, quality, scale, 1.0).priceUsdEach;
    assert Max(1.0, quantity) == Max(1.0, 1.0);
    assert OrderTotal(p, quantity) == OrderTotal(p, 1.0);
    TotalChargesBaseFeeOnce(baseVolumeMm3, material, quality, scale, 1);
  }

  /** A scale of zero or below is not rejected: it yields an empty part billed at the minimum. */
  lemma NonPositiveScaleBillsMinimum(baseVolumeMm3: real, material: MaterialId, quality: PrintQuality, scale: real, q: int)
    requires scale <= 0.0 && q >= 1
    ensures var r := EstimateFromVolume(baseVolumeMm3, material, quality, scale, q as real);
      && r.volumeMm3Each == 0.0
      && r.gramsEach == 0.0
      && r.priceUsdEach == MinimumPriceUsd
      && r.totalPriceUsd == BaseFeeUsd + MinimumPriceUsd * q as real
  {
    ScaledVolumeAtNonPositiveScale(baseVolumeMm3, scale);
    NoMaterialCostsMinimum(material, quality);
    TotalChargesBaseFeeOnce(baseVolumeMm3, material, quality, scale, q);
  }

  lemma ScaledVolumeAtNonPositiveScale(baseVolumeMm3: real, scale: real)
    requires scale <= 0.0
    ensures ScaledVolume(baseVolumeMm3, scale) == 0.0
  {
    assert Max(0.0, scale) == 0.0;
    assert Cube(0.0) == 0.0;
  }

  /** Zero grams weigh nothing after rounding and cost the minimum. */
  lemma NoMaterialCostsMinimum(material: MaterialId, quality: PrintQuality)
    ensures Max(0.0, GramsRaw(0.0, material, quality)) == 0.0
    ensures Round1(0.0) == 0.0
    ensures UnitPrice(0.0, material, quality) == MinimumPriceUsd
  {
    assert GramsRaw(0.0, material, quality) == 0.0;
    assert PriceByWeight(0.0, material, quality) == 0.0;
    assert Round2(0.0) == 0.0;
  }

  /**
   * The reported grams are rounded to tenths, within 0.05 g of the grams the
   * price is computed from.
   */
  lemma ReportedGramsNearPricedGrams(baseVolumeMm3: real, material: MaterialId, quality: PrintQuality, scale: real, quantity: real)
    ensures var grams := Max(0.0, GramsRaw(ScaledVolume(baseVolumeMm3, scale), material, quality));
      var r := EstimateFromVolume(baseVolumeMm3, material, quality, scale, quantity);
      -0.05 <= r.gramsEach - grams <= 0.05 && r.priceUsdEach == UnitPrice(grams, material, quality)
  {
    Round1Bounds(Max(0.0, GramsRaw(ScaledVolume(baseVolumeMm3, scale), material, quality)));
  }

  /** Pricing the rounded grams instead of the unrounded ones would change the price by a cent. */
  lemma PriceUsesUnroundedGrams()
    ensures Round1(50.04) == 50.0
    ensures UnitPrice(50.04, Pa6Cf, Fine) == 7.21
    ensures UnitPrice(Round1(50.04), Pa6Cf, Fine) == 7.2
  {
    assert PriceByWeight(50.04, Pa6Cf, Fine) == 7.20576;
    assert (100.0 * 7.20576 + 0.5).Floor == 721;
    assert PriceByWeight(50.0, Pa6Cf, Fine) == 7.2;
    assert (100.0 * 7.2 + 0.5).Floor == 720;
  }

  /**
   * Worked example: a 10 cm^3 PLA part at standard quality weighs 5.5 g, costs
   * the 5.00 minimum, and totals 8.00 for one item and 18.00 for three.
   */
  lemma WorkedExample()
    ensures EstimateFromVolume(10000.0, Pla, Standard, 1.0, 1.0) == PriceEstimate(10000.0, 5.5, 5.0, 8.0)
    ensures EstimateFromVolume(10000.0, Pla, Standard, 1.0, 3.0).totalPriceUsd == 18.0
  {
    assert GramsRaw(10000.0, Pla, Standard) == 5.456;
    assert (10.0 * 5.456 + 0.5).Floor == 55;
    assert PriceByWeight(5.456, Pla, Standard) == 0.32736;
    assert (100.0 * 0.32736 + 0.5).Floor == 33;
    assert (100.0 * 8.0 + 0.5).Floor == 800;
    assert (100.0 * 18.0 + 0.5).Floor == 1800;
  }

  /** A larger part never costs less, per item or in total. */
  lemma PriceMonotoneInVolume(v1: real, v2: real, material: MaterialId, quality: PrintQuality, scale: real, quantity: real)
    requires v1 <= v2
    ensures var r1, r2 := EstimateFromVolume(v1, material, quality, scale, quantity), EstimateFromVolume(v2, material, quality, scale, quantity);
      r1.priceUsdEach <= r2.priceUsdEach && r1.totalPriceUsd <= r2.totalPriceUsd
  {
    CubeOfNonNegative(Max(0.0, scale));
    TimesMonotone(Cube(Max(0.0, scale)), v1, v2);
    var w1, w2 := ScaledVolume(v1, scale), ScaledVolume(v2, scale);
    GramsRawMonotone(w1, w2, material, quality);
    var g1 := Max(0.0, GramsRaw(w1, material, quality));
    var g2 := Max(0.0, GramsRaw(w2, material, quality));
    UnitPriceMonotone(g1, g2, material, quality);
    OrderTotalMonotone(UnitPrice(g1, material, quality), UnitPrice(g2, material, quality), quantity);
  }

  lemma GramsRawMonotone(v1: real, v2: real, material: MaterialId, quality: PrintQuality)
    requires v1 <= v2
    ensures GramsRaw(v1, material, quality) <= GramsRaw(v2, material, quality)
  {
    var k := MaterialOf(material).densityGCm3 * QualityFillFactor(quality) * HandlingMultiplier / 1000.0;
    assert k >= 0.0;
    assert GramsRaw(v1, material, quality) == Times(k, v1);
    assert GramsRaw(v2, material, quality) == Times(k, v2);
    TimesMonotone(k, v1, v2);
  }

  lemma UnitPriceMonotone(g1: real, g2: real, material: MaterialId, quality: PrintQuality)
    requires g1 <= g2
    ensures UnitPrice(g1, material, quality) <= UnitPrice(g2, material, quality)
  {
    var k := MaterialOf(material).rateUsdPerGram * QualityMultiplier(quality);
    assert k >= 0.0;
    assert PriceByWeight(g1, material, quality) == Times(k, g1);
    assert PriceByWeight(g2, material, quality) == Times(k, g2);
    TimesMonotone(k, g1, g2);
    Round2Monotone(PriceByWeight(g1, material, quality), PriceByWeight(g2, material, quality));
  }

  lemma OrderTotalMonotone(p1: real, p2: real, quantity: real)
    requires p1 <= p2
    ensures OrderTotal(p1, quantity) <= OrderTotal(p2, quantity)
  {
    var n := Max(1.0, quantity);
    assert Times(n, p1) <= Times(n, p2) by {
      TimesMonotone(n, p1, p2);
    }
    Round2Monotone(BaseFeeUsd + Times(n, p1), BaseFeeUsd + Times(n, p2));
  }

  /**
   * The estimator scales the unscaled volume by scale^3 instead of scaling the
   * mesh; for a non-negative scale this is the volume of the scaled mesh.
   */
  lemma EstimatedVolumeIsScaledMeshVolume(mesh: Mesh, scale: real)
    requires scale >= 0.0
    ensures ScaledVolume(MeshVolume(mesh), scale) == MeshVolume(ScaleMesh(mesh, scale))
  {
    VolumeScalesCubically(mesh, scale);
  }
}
