/**
 * The scale resolver and input handlers of the upload page
 * (src/app/upload/page.tsx): the largest uniform scale that fits the printer's
 * 256 mm build cube, the clamp of the requested scale to it, the quantity and
 * scale inputs, and the estimate the page asks for.
 *
 * `Infinity` (an axis of size zero imposes no limit) is `None`.
 */
module Upload {
  import opened Wrappers
  import opened Geometry
  import opened Materials
  import opened Pricing

  /** Edge of the build cube in millimetres, the same on all three axes. */
  const BuildMm: real := 256.0

  /** A number as an `<input type="number">` reports it; an empty or invalid field is NaN. */
  datatype JsNumber = Finite(v: real) | NaN | PosInf | NegInf

  function Min(a: real, b: real): (r: real)
    ensures r <= a && r <= b && (r == a || r == b)
  {
    if a <= b then a else b
  }

  // ---------------------------------------------------------------------------
  // Limits

  /** The scale limit one axis imposes: 256 / size, or none when the size is zero. */
  function AxisLimit(size: real): (r: Option<real>)
    ensures r.Some? <==> size > 0.0
    ensures r.Some? ==> r.value > 0.0 && Times(size, r.value) == BuildMm
  {
    if size > 0.0 then Some(BuildMm / size) else None
  }

  /** `Math.min` where `None` is `Infinity`. */
  function MinLimit(a: Option<real>, b: Option<real>): (r: Option<real>)
    ensures r.None? <==> a.None? && b.None?
    ensures r.Some? ==> (a.Some? ==> r.value <= a.value) && (b.Some? ==> r.value <= b.value)
    ensures r.Some? ==> r == a || r == b
  {
    match (a, b)
    case (None, _) => b
    case (_, None) => a
    case (Some(x), Some(y)) => Some(Min(x, y))
  }

  /** `maxScale`: the smallest per-axis limit, floored at zero. */
  function MaxScale(baseSize: Vec3): (r: Option<real>)
    ensures r.None? <==> baseSize.x <= 0.0 && baseSize.y <= 0.0 && baseSize.z <= 0.0
    ensures r.Some? ==> r.value > 0.0
    ensures forall axis :: Coord(baseSize, axis) > 0.0 ==> r.Some? && r.value <= AxisLimit(Coord(baseSize, axis)).value
    ensures r.Some? ==> exists axis :: Coord(baseSize, axis) > 0.0 && r.value == AxisLimit(Coord(baseSize, axis)).value
  {
    var m := MinLimit(MinLimit(AxisLimit(baseSize.x), AxisLimit(baseSize.y)), AxisLimit(baseSize.z));
    match m
    case None => None
    case Some(v) =>
      assert Coord(baseSize, X) == baseSize.x && Coord(baseSize, Y) == baseSize.y && Coord(baseSize, Z) == baseSize.z;
      Some(Max(0.0, v))
  }

  /** `maxScale || 1`: a zero limit would be replaced by 1 (`Infinity` is truthy and kept). */
  function EffectiveMax(maxScale: Option<real>): (r: Option<real>)
    ensures maxScale.Some? && maxScale.value != 0.0 ==> r == maxScale
    ensures maxScale == Some(0.0) ==> r == Some(1.0)
    ensures maxScale.None? ==> r.None?
  {
    match maxScale
    case Some(m) => if m == 0.0 then Some(1.0) else Some(m)
    case None => None
  }

  datatype SizeAndLimits = SizeAndLimits(baseSize: Vec3, maxScale: Option<real>)

  /** `sizeAndLimits`: nothing without a geometry, otherwise its size and maximum scale. */
  function SizeAndLimitsOf(geometry: Option<BufferGeometry>): (r: Option<SizeAndLimits>)
    ensures r.Some? <==> geometry.Some?
    ensures r.Some? ==> r.value.maxScale == MaxScale(r.value.baseSize)
  {
    match geometry
    case None => None
    case Some(g) =>
      var baseSize := ComputeGeometrySizeMM(g);
      Some(SizeAndLimits(baseSize, MaxScale(baseSize)))
  }

  // ---------------------------------------------------------------------------
  // Requested and clamped scale

  /** `scale`: the percentage as a factor, never below 1%. */
  function RequestedScale(scalePct: int): (r: real)
    ensures r >= 0.01
    ensures scalePct >= 1 ==> r == scalePct as real / 100.0
  {
    Max(0.01, scalePct as real / 100.0)
  }

  /** `clampedScale`: the requested scale, capped by the maximum scale when a model is loaded. */
  function ClampedScale(limits: Option<SizeAndLimits>, scalePct: int): (r: real)
    ensures r <= RequestedScale(scalePct)
    ensures limits.None? ==> r == RequestedScale(scalePct)
    ensures limits.None? || limits.value.maxScale == MaxScale(limits.value.baseSize) ==> r > 0.0
    ensures limits.Some? && EffectiveMax(limits.value.maxScale).Some? ==> r <= EffectiveMax(limits.value.maxScale).value
    ensures limits.Some? && EffectiveMax(limits.value.maxScale).Some? ==>
      r == RequestedScale(scalePct) || r == EffectiveMax(limits.value.maxScale).value
    ensures limits.Some? && EffectiveMax(limits.value.maxScale).None? ==> r == RequestedScale(scalePct)
  {
    var scale := RequestedScale(scalePct);
    match limits
    case None => scale
    case Some(l) =>
      match EffectiveMax(l.maxScale)
      case None => scale
      case Some(m) => Min(scale, m)
  }

  /** The "scale limited to printer volume" note is shown exactly when the clamp lowered the scale. */
  predicate ShowsScaleLimited(limits: Option<SizeAndLimits>, scalePct: int) {
    limits.Some? && RequestedScale(scalePct) > ClampedScale(limits, scalePct)
  }

  lemma ScaleLimitedIff(limits: Option<SizeAndLimits>, scalePct: int)
    ensures ShowsScaleLimited(limits, scalePct)
        <==> limits.Some? && EffectiveMax(limits.value.maxScale).Some?
             && RequestedScale(scalePct) > EffectiveMax(limits.value.maxScale).value
  {
  }

  lemma ProductBound(size: real, c: real, limit: real)
    requires size > 0.0 && 0.0 <= c <= limit && Times(size, limit) == BuildMm
    ensures Times(size, c) <= BuildMm
  {
    TimesMonotone(size, c, limit);
  }

  /** On every axis the model has extent along, the base size times the clamped scale is at most 256 mm. */
  lemma ClampedScaleFits(baseSize: Vec3, scalePct: int, axis: Axis)
    requires Coord(baseSize, axis) > 0.0
    ensures Times(Coord(baseSize, axis), ClampedScale(Some(SizeAndLimits(baseSize, MaxScale(baseSize))), scalePct)) <= BuildMm
  {
    var size := Coord(baseSize, axis);
    var limit := AxisLimit(size).value;
    ProductBound(size, ClampedScale(Some(SizeAndLimits(baseSize, MaxScale(baseSize))), scalePct), limit);
  }

  /**
   * The loaded model, scaled by the clamped scale, fits the build cube: its
   * bounding size is at most 256 mm on every axis.
   */
  lemma ScaledModelFitsBuildVolume(pos: seq<Vec3>, index: Option<seq<nat>>, scalePct: int, axis: Axis)
    ensures var g := BufferGeometry(Some(pos), index);
      var c := ClampedScale(SizeAndLimitsOf(Some(g)), scalePct);
      AxisExtent(ScalePositions(pos, c), axis) <= BuildMm
  {
    var g := BufferGeometry(Some(pos), index);
    var baseSize := ComputeGeometrySizeMM(g);
    var c := ClampedScale(SizeAndLimitsOf(Some(g)), scalePct);
    SizeIsAxisExtent(pos, index, axis);
    if AxisExtent(pos, axis) > 0.0 {
      ClampedScaleFits(baseSize, scalePct, axis);
    }
    ScaledExtentBound(pos, c, axis);
  }

  lemma SizeIsAxisExtent(pos: seq<Vec3>, index: Option<seq<nat>>, axis: Axis)
    ensures Coord(ComputeGeometrySizeMM(BufferGeometry(Some(pos), index)), axis) == AxisExtent(pos, axis)
  {
  }

  lemma ScaledExtentBound(pos: seq<Vec3>, c: real, axis: Axis)
    requires c >= 0.0
    requires AxisExtent(pos, axis) > 0.0 ==> Times(AxisExtent(pos, axis), c) <= BuildMm
    ensures AxisExtent(ScalePositions(pos, c), axis) <= BuildMm
  {
    SizeScalesLinearly(pos, c, axis);
    assert Times(c, AxisExtent(pos, axis)) == Times(AxisExtent(pos, axis), c);
  }

  // ---------------------------------------------------------------------------
  // Inputs

  /** The quantity input: finite numbers are floored and raised to at least 1; anything else is 1. */
  function NormalizeQuantity(n: JsNumber): (r: int)
    ensures r >= 1
    ensures n.Finite? && n.v >= 1.0 ==> r == n.v.Floor
    ensures !n.Finite? || n.v < 1.0 ==> r == 1
  {
    match n
    case Finite(v) => if v.Floor >= 1 then v.Floor else 1
    case _ => 1
  }

  /** The quantity the page passes to the estimator (`Math.max(1, Math.floor(...))` of the stored value). */
  function EstimateQuantity(quantity: int): (r: int)
    ensures r >= 1 && (quantity >= 1 ==> r == quantity)
  {
    if quantity >= 1 then quantity else 1
  }

  /** The estimator is handed exactly the quantity the input stored. */
  lemma EstimateSeesStoredQuantity(n: JsNumber)
    ensures EstimateQuantity(NormalizeQuantity(n)) == NormalizeQuantity(n)
    ensures NormalizeQuantity(Finite(NormalizeQuantity(n) as real)) == NormalizeQuantity(n)
  {
  }

  /** The typed scale percentage: finite numbers are floored and raised to at least 1; anything else is 100. */
  function NormalizeScaleInput(n: JsNumber): (r: int)
    ensures r >= 1
    ensures n.Finite? && n.v >= 1.0 ==> r == n.v.Floor
    ensures n.Finite? && n.v < 1.0 ==> r == 1
    ensures !n.Finite? ==> r == 100
  {
    match n
    case Finite(v) => if v.Floor >= 1 then v.Floor else 1
    case _ => 100
  }

  /** `Math.floor((maxScale || 1) * 100)`: the largest whole percentage allowed, none when unbounded. */
  function MaxPct(maxScale: Option<real>): (r: Option<int>)
    ensures r.None? <==> EffectiveMax(maxScale).None?
    ensures r.Some? ==> r.value as real <= EffectiveMax(maxScale).value * 100.0 < r.value as real + 1.0
  {
    match EffectiveMax(maxScale)
    case None => None
    case Some(m) => Some((m * 100.0).Floor)
  }

  /** The slider's upper end: 300% with no model, otherwise the largest allowed percentage. */
  function SliderMax(limits: Option<SizeAndLimits>): (r: Option<int>)
    ensures limits.None? ==> r == Some(300)
    ensures limits.Some? ==> r == MaxPct(limits.value.maxScale)
  {
    match limits
    case None => Some(300)
    case Some(l) => MaxPct(l.maxScale)
  }

  /** The (scalePct, sliderPct) pair after leaving the scale input. */
  datatype Percentages = Percentages(scalePct: int, sliderPct: int)

  /**
   * The blur handler as written: the scale is lowered to the largest allowed
   * percentage, but the slider is set from the value of `scalePct` captured
   * when the handler was created, which is the value before the lowering.
   */
  function BlurAsWritten(limits: Option<SizeAndLimits>, p: Percentages): (r: Percentages)
    ensures limits.None? ==> r == p
    ensures limits.Some? ==> r.sliderPct == p.scalePct
  {
    match limits
    case None => p
    case Some(l) =>
      var scalePct := match MaxPct(l.maxScale)
        case Some(maxPct) => if p.scalePct > maxPct then maxPct else p.scalePct
        case None => p.scalePct;
      Percentages(scalePct, p.scalePct)
  }

  /** A part 512 mm long allows 50%; typing 80% and leaving the field leaves the slider at 80%, past its end. */
  lemma BlurAsWrittenDesynchronises()
    ensures var limits := Some(SizeAndLimits(Vec3(512.0, 1.0, 1.0), MaxScale(Vec3(512.0, 1.0, 1.0))));
      && SliderMax(limits) == Some(50)
      && BlurAsWritten(limits, Percentages(80, 100)) == Percentages(50, 80)
  {
    assert MaxScale(Vec3(512.0, 1.0, 1.0)) == Some(0.5);
    assert (0.5 * 100.0).Floor == 50;
  }

  /** The blur handler as intended: lower the scale to the largest allowed percentage and move the slider to it. */
  function Blur(limits: Option<SizeAndLimits>, p: Percentages): (r: Percentages)
    ensures limits.None? ==> r == p
    ensures limits.Some? ==> r.sliderPct == r.scalePct
    ensures limits.Some? && MaxPct(limits.value.maxScale).Some? ==> r.scalePct <= MaxPct(limits.value.maxScale).value
    ensures r.scalePct == p.scalePct || (limits.Some? && Some(r.scalePct) == MaxPct(limits.value.maxScale) && r.scalePct < p.scalePct)
  {
    var q := BlurAsWritten(limits, p);
    if limits.Some? then Percentages(q.scalePct, q.scalePct) else q
  }

  /** With a model loaded, leaving the scale input sets both percentages to the scale lowered to the maximum. */
  lemma BlurLowersToMax(limits: Option<SizeAndLimits>, p: Percentages, maxPct: Option<int>, pct: int)
    requires limits.Some? && maxPct == MaxPct(limits.value.maxScale)
    requires pct == if maxPct.Some? && p.scalePct > maxPct.value then maxPct.value else p.scalePct
    ensures Blur(limits, p) == Percentages(pct, pct)
  {
  }

  /** Once the scale input is left with a percentage of at least 1%, the page no longer needs to clamp it. */
  lemma BlurRemovesClamp(limits: Option<SizeAndLimits>, p: Percentages)
    requires Blur(limits, p).scalePct >= 1
    ensures ClampedScale(limits, Blur(limits, p).scalePct) == RequestedScale(Blur(limits, p).scalePct)
    ensures !ShowsScaleLimited(limits, Blur(limits, p).scalePct)
  {
    var pct := Blur(limits, p).scalePct;
    if limits.Some? && EffectiveMax(limits.value.maxScale).Some? {
      var m := EffectiveMax(limits.value.maxScale).value;
      assert pct as real <= m * 100.0;
      assert RequestedScale(pct) == pct as real / 100.0;
    }
  }

  // ---------------------------------------------------------------------------
  // The page state

  /**
   * The print settings of the upload page. The geometry is set by file loading,
   * which is not part of this model; the handlers below update the rest.
   */
  class UploadForm {
    var geometry: Option<BufferGeometry>
    var material: MaterialId
    var quality: PrintQuality
    var colorId: string
    var quantity: int
    var scalePct: int
    var sliderPct: int

    /** The chosen colour is one the material offers, the quantity is at least 1, and the geometry can be read. */
    predicate Valid()
      reads this
    {
      && Offers(material, colorId)
      && quantity >= 1
      && (geometry.Some? ==> Readable(geometry.value))
    }

    constructor ()
      ensures Valid()
      ensures geometry == None && material == Pla && quality == Standard && colorId == "black"
      ensures quantity == 1 && scalePct == 100 && sliderPct == 100
    {
      geometry := None;
      material := Pla;
      quality := Standard;
      colorId := "black";
      quantity := 1;
      scalePct := 100;
      sliderPct := 100;
      new;
      assert MaterialColors(material)[0].id == colorId;
    }

    function Limits(): Option<SizeAndLimits>
      reads this
    {
      SizeAndLimitsOf(geometry)
    }

    /** The estimate shown beside the settings: none without a model. */
    function Estimate(): (r: Option<PriceEstimate>)
      reads this
      requires Valid()
      ensures r.Some? <==> geometry.Some?
      ensures r.Some? ==> r.value == EstimatePrice(geometry.value, material, quality, ClampedScale(Limits(), scalePct), quantity as real)
    {
      match geometry
      case None => None
      case Some(g) => Some(EstimatePrice(g, material, quality, ClampedScale(Limits(), scalePct), EstimateQuantity(quantity) as real))
    }

    /** Choosing a material resets the colour to that material's first colour. */
    method OnMaterialChange(m: MaterialId)
      requires Valid()
      modifies this
      ensures Valid()
      ensures material == m && colorId == DefaultColorId(m)
      ensures SelectedColor(material, colorId) == MaterialColors(m)[0]
      ensures geometry == old(geometry) && quality == old(quality) && quantity == old(quantity)
      ensures scalePct == old(scalePct) && sliderPct == old(sliderPct)
    {
      material := m;
      colorId := DefaultColorId(m);
      DefaultColorIsSelectable(m);
      assert MaterialColors(material)[0].id == colorId;
    }

    method OnQuantityChange(n: JsNumber)
      requires Valid()
      modifies this
      ensures Valid()
      ensures quantity == NormalizeQuantity(n)
      ensures geometry == old(geometry) && material == old(material) && quality == old(quality) && colorId == old(colorId)
      ensures scalePct == old(scalePct) && sliderPct == old(sliderPct)
    {
      quantity := NormalizeQuantity(n);
    }

    /** Moving the slider sets both the slider and the scale percentage. */
    method OnSliderChange(v: int)
      requires Valid()
      modifies this
      ensures Valid()
      ensures sliderPct == v && scalePct == v
      ensures geometry == old(geometry) && material == old(material) && quality == old(quality) && colorId == old(colorId)
      ensures quantity == old(quantity)
    {
      sliderPct := v;
      scalePct := v;
    }

    /** Typing a scale percentage sets the scale only; the slider follows on blur. */
    method OnScaleInputChange(n: JsNumber)
      requires Valid()
      modifies this
      ensures Valid()
      ensures scalePct == NormalizeScaleInput(n) && sliderPct == old(sliderPct)
      ensures geometry == old(geometry) && material == old(material) && quality == old(quality) && colorId == old(colorId)
      ensures quantity == old(quantity)
    {
      scalePct := NormalizeScaleInput(n);
    }

    method OnScaleBlur()
      requires Valid()
      modifies this
      ensures Valid()
      ensures Percentages(scalePct, sliderPct) == Blur(Limits(), old(Percentages(scalePct, sliderPct)))
      ensures geometry == old(geometry) && material == old(material) && quality == old(quality) && colorId == old(colorId)
      ensures quantity == old(quantity)
    {
      var limits := SizeAndLimitsOf(geometry);
      if limits.None? {
        return;
      }
      ghost var before := Percentages(scalePct, sliderPct);
      var maxPct := MaxPct(limits.value.maxScale);
      if maxPct.Some? && scalePct > maxPct.value {
        scalePct := maxPct.value;
      }
      sliderPct := scalePct;
      BlurLowersToMax(limits, before, maxPct, scalePct);
    }
  }
}
