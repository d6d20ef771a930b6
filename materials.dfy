/**
 * The static catalogue (src/lib/materials.ts): materials with their density and
 * per-gram rate, the quality tables, the pricing constants and the colours
 * offered for each material. Every table is a total lookup function.
 */
module Materials {
  import opened Wrappers

  datatype MaterialId = Pla | Abs | Tpu | Pa6Cf | Asa | Nylon

  datatype PrintQuality = Draft | Standard | Fine

  datatype Material = Material(id: MaterialId, displayName: string, densityGCm3: real, rateUsdPerGram: real)

  /** The string key a material is stored and sent under. */
  function MaterialKey(m: MaterialId): string {
    match m
    case Pla => "pla"
    case Abs => "abs"
    case Tpu => "tpu"
    case Pa6Cf => "pa6-cf"
    case Asa => "asa"
    case Nylon => "nylon"
  }

  function QualityKey(q: PrintQuality): string {
    match q
    case Draft => "draft"
    case Standard => "standard"
    case Fine => "fine"
  }

  /** `MATERIALS`: every entry is filed under its own id and has a positive density and rate. */
  function MaterialOf(m: MaterialId): (r: Material)
    ensures r.id == m
    ensures r.densityGCm3 > 0.0 && r.rateUsdPerGram > 0.0
  {
    match m
    case Pla => Material(Pla, "PLA", 1.24, 0.06)
    case Abs => Material(Abs, "ABS", 1.04, 0.07)
    case Tpu => Material(Tpu, "TPU", 1.21, 0.08)
    case Pa6Cf => Material(Pa6Cf, "PA6-CF", 1.12, 0.12)
    case Asa => Material(Asa, "ASA", 1.07, 0.09)
    case Nylon => Material(Nylon, "Nylon", 1.01, 0.11)
  }

  /** Position of a quality level from draft (0) to fine (2). */
  function QualityRank(q: PrintQuality): nat {
    match q
    case Draft => 0
    case Standard => 1
    case Fine => 2
  }

  /** `QUALITY_MULTIPLIER`: the price factor of a quality level. */
  function QualityMultiplier(q: PrintQuality): (r: real)
    ensures r > 0.0
  {
    match q
    case Draft => 0.95
    case Standard => 1.0
    case Fine => 1.2
  }

  /** `QUALITY_FILL_FACTOR`: the share of the solid volume that is printed. */
  function QualityFillFactor(q: PrintQuality): (r: real)
    ensures 0.0 < r < 1.0
  {
    match q
    case Draft => 0.25
    case Standard => 0.4
    case Fine => 0.6
  }

  /** A finer quality costs strictly more per gram and prints strictly more material. */
  lemma FinerQualityCostsMore(p: PrintQuality, q: PrintQuality)
    ensures QualityRank(p) < QualityRank(q) <==> QualityMultiplier(p) < QualityMultiplier(q)
    ensures QualityRank(p) < QualityRank(q) <==> QualityFillFactor(p) < QualityFillFactor(q)
  {
  }

  // `PRICING_CONSTANTS`
  const BaseFeeUsd: real := 3.0
  const MinimumPriceUsd: real := 5.0
  const HandlingMultiplier: real := 1.1

  datatype ColorOption = ColorOption(id: string, displayName: string, hex: string)

  const Black := ColorOption("black", "Black", "#111111")
  const White := ColorOption("white", "White", "#f5f5f5")
  const Gray := ColorOption("gray", "Gray", "#9ca3af")
  const Red := ColorOption("red", "Red", "#ef4444")
  const Blue := ColorOption("blue", "Blue", "#3b82f6")
  const Green := ColorOption("green", "Green", "#22c55e")
  const Yellow := ColorOption("yellow", "Yellow", "#f59e0b")
  const Orange := ColorOption("orange", "Orange", "#fb923c")
  const Purple := ColorOption("purple", "Purple", "#8b5cf6")
  const Clear := ColorOption("clear", "Clear", "#e5e7eb")
  const Natural := ColorOption("natural", "Natural", "#dddcdc")

  predicate UniqueIds(colors: seq<ColorOption>) {
    forall i, j :: 0 <= i < j < |colors| ==> colors[i].id != colors[j].id
  }

  /** `MATERIAL_COLORS`: a non-empty list for every material. */
  function MaterialColors(m: MaterialId): (r: seq<ColorOption>)
    ensures |r| > 0
  {
    match m
    case Pla => [Black, White, Gray, Red, Blue, Green, Yellow, Orange, Purple]
    case Abs => [Black, White, Gray, Red, Blue, Green]
    case Tpu => [Black, White, Clear, Red, Blue]
    case Pa6Cf => [Black]
    case Asa => [Black, White, Gray]
    case Nylon => [Natural, Black]
  }

  /** No material lists two colours with the same id, so an id picks out one option. */
  lemma ColorIdsAreUnique(m: MaterialId)
    ensures UniqueIds(MaterialColors(m))
  {
    match m
    case Pla =>
    case Abs =>
    case Tpu =>
    case Pa6Cf =>
    case Asa =>
    case Nylon =>
  }

  /** The material offers a colour with this id. */
  predicate Offers(m: MaterialId, colorId: string) {
    exists i :: 0 <= i < |MaterialColors(m)| && MaterialColors(m)[i].id == colorId
  }

  /** The colour id the upload form falls back to: the first of the material's list. */
  function DefaultColorId(m: MaterialId): (r: string)
    ensures exists i :: 0 <= i < |MaterialColors(m)| && MaterialColors(m)[i].id == r
  {
    MaterialColors(m)[0].id
  }

  /**
   * The colour shown as selected: the option whose id matches, or the first one
   * when none does (`find(...) ?? colorOptions[0]`).
   */
  function SelectedColor(m: MaterialId, colorId: string): (r: ColorOption)
    ensures r in MaterialColors(m)
    ensures (exists i :: 0 <= i < |MaterialColors(m)| && MaterialColors(m)[i].id == colorId) ==> r.id == colorId
    ensures (forall i :: 0 <= i < |MaterialColors(m)| ==> MaterialColors(m)[i].id != colorId) ==> r == MaterialColors(m)[0]
  {
    FindColor(MaterialColors(m), colorId).GetOr(MaterialColors(m)[0])
  }

  /** `Array.prototype.find` on the id: the first option with that id. */
  function FindColor(colors: seq<ColorOption>, id: string): (r: Option<ColorOption>)
    ensures r.Some? <==> exists i :: 0 <= i < |colors| && colors[i].id == id
    ensures r.Some? ==> r.value in colors && r.value.id == id
  {
    if |colors| == 0 then None
    else if colors[0].id == id then Some(colors[0])
    else
      var r := FindColor(colors[1..], id);
      assert forall i :: 1 <= i < |colors| ==> colors[i] == colors[1..][i - 1];
      r
  }

  /** Selecting the default colour of a material selects that material's first colour. */
  lemma DefaultColorIsSelectable(m: MaterialId)
    ensures SelectedColor(m, DefaultColorId(m)) == MaterialColors(m)[0]
  {
  }
}
