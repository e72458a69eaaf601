/**
 * The box configurator: fixed option tables, the per-unit price estimate, and the
 * update of the selection record. The selection is a record keyed by category name
 * (`boxType`, `size`, `material`, `finish`, `color`, `branding`, `quantity`), modelled
 * as a map from key to selected id. Prices are exact reals; the display rounds to
 * whole cents.
 */
module Customize {
  import opened Wrappers
  import Numerals

  /** One row of a table: an option id and its price factor (base price or multiplier). */
  datatype Row = Row(id: string, factor: real)

  const BoxTypes: seq<Row> := [
    Row("magnetic", 4.25), Row("rigid-gift", 3.50), Row("hinged", 2.95), Row("cylindrical", 3.20)]

  const Sizes: seq<Row> := [
    Row("small", 0.8), Row("medium", 1.0), Row("large", 1.3), Row("custom", 1.2)]

  const Materials: seq<Row> := [
    Row("standard", 1.0), Row("premium", 1.2), Row("luxury", 1.5)]

  const Finishes: seq<Row> := [
    Row("matte", 1.0), Row("gloss", 1.1), Row("soft-touch", 1.3), Row("spot-uv", 1.4)]

  /** The colour table has no price column. */
  const Brandings: seq<Row> := [
    Row("none", 1.0), Row("digital-print", 1.2), Row("foil-stamping", 1.5),
    Row("embossing", 1.4), Row("debossing", 1.3)]

  /** Quantity tiers, smallest order first. */
  const QuantityTiers: seq<Row> := [
    Row("100", 1.5), Row("500", 1.2), Row("1000", 1.0), Row("2500", 0.85), Row("5000", 0.7)]

  /** The price used when the selected box type is not in the table. */
  const FallbackBasePrice: real := 3.50

  type Selection = map<string, string>

  const DefaultSelection: Selection := map[
    "boxType" := "magnetic", "size" := "medium", "material" := "premium", "finish" := "matte",
    "color" := "black", "branding" := "foil-stamping", "quantity" := "1000"]

  /** `table.find(row => row.id === id)`: the first row with that id, if any. */
  function Find(table: seq<Row>, id: string): (r: Option<real>)
    ensures r.None? <==> forall i :: 0 <= i < |table| ==> table[i].id != id
    ensures r.Some? ==> exists i :: 0 <= i < |table| && table[i].id == id && table[i].factor == r.value
                                 && forall j :: 0 <= j < i ==> table[j].id != id
  {
    if table == [] then None
    else if table[0].id == id then Some(table[0].factor)
    else
      var r := Find(table[1..], id);
      assert forall i :: 1 <= i < |table| ==> table[i].id == table[1..][i - 1].id;
      r
  }

  /** The table lookup for one category of the selection; a missing key matches nothing. */
  function Selected(table: seq<Row>, sel: Selection, key: string): Option<real> {
    if key in sel then Find(table, sel[key]) else None
  }

  /** `row?.field || fallback`: the fallback replaces a missing row and a zero factor alike. */
  function FactorOr(r: Option<real>, fallback: real): (f: real)
    ensures r.None? ==> f == fallback
    ensures r.Some? && r.value != 0.0 ==> f == r.value
  {
    if r.Some? && r.value != 0.0 then r.value else fallback
  }

  /** The six factors of an estimate: the base price and the five multipliers. */
  datatype Factors = Factors(base: real, size: real, material: real, finish: real, branding: real, quantity: real)

  /** Each factor looked up in its table, with the fallback for an unknown id. */
  function FactorsOf(sel: Selection): Factors {
    Factors(
      FactorOr(Selected(BoxTypes, sel, "boxType"), FallbackBasePrice),
      FactorOr(Selected(Sizes, sel, "size"), 1.0),
      FactorOr(Selected(Materials, sel, "material"), 1.0),
      FactorOr(Selected(Finishes, sel, "finish"), 1.0),
      FactorOr(Selected(Brandings, sel, "branding"), 1.0),
      FactorOr(Selected(QuantityTiers, sel, "quantity"), 1.0))
  }

  /** `basePrice * totalMultiplier`. */
  function Estimate(f: Factors): real {
    f.base * (f.size * f.material * f.finish * f.branding * f.quantity)
  }

  /** `calculatePrice()` before rounding: the per-unit estimate of a selection. */
  function CalculatePrice(sel: Selection): real {
    Estimate(FactorsOf(sel))
  }

  /** `handleOptionChange(category, value)`: the new selection record. */
  function OptionChange(sel: Selection, category: string, value: string): (r: Selection)
    ensures category in r && r[category] == value
    ensures r.Keys == sel.Keys + {category}
    ensures forall k :: k in sel && k != category ==> r[k] == sel[k]
  {
    sel[category := value]
  }

  /** The keys that enter the price; every other key of the record is ignored by it. */
  const PricedKeys: set<string> := {"boxType", "size", "material", "finish", "branding", "quantity"}

  /** The estimate reads only the priced keys: changing any other key (the colour, say) leaves it. */
  lemma PriceIgnoresUnpricedKeys(sel: Selection, key: string, value: string)
    requires key !in PricedKeys
    ensures FactorsOf(OptionChange(sel, key, value)) == FactorsOf(sel)
    ensures CalculatePrice(OptionChange(sel, key, value)) == CalculatePrice(sel)
  {
    var r := OptionChange(sel, key, value);
    assert forall k :: k in PricedKeys ==> (k in r <==> k in sel) && (k in sel ==> r[k] == sel[k]);
  }

  /** In particular the selected colour never changes the price. */
  lemma ColorNeverAffectsPrice(sel: Selection, color: string)
    ensures CalculatePrice(OptionChange(sel, "color", color)) == CalculatePrice(sel)
  {
    PriceIgnoresUnpricedKeys(sel, "color", color);
  }

  /** Every factor a table can supply, or a fallback, lies in the table's range. */
  predicate FactorsWithin(table: seq<Row>, lo: real, hi: real) {
    forall i :: 0 <= i < |table| ==> lo <= table[i].factor <= hi
  }

  lemma FactorBounds(table: seq<Row>, sel: Selection, key: string, fallback: real, lo: real, hi: real)
    requires 0.0 < lo <= fallback <= hi
    requires FactorsWithin(table, lo, hi)
    ensures lo <= FactorOr(Selected(table, sel, key), fallback) <= hi
  {
  }

  lemma MulMonotone(a: real, b: real, c: real, d: real)
    requires 0.0 < a <= b && 0.0 < c <= d
    ensures 0.0 < a * c <= b * d
  {
    assert a * c <= b * c;
    assert b * c <= b * d;
  }

  /** Smallest and largest estimate any selection can produce. */
  const MinPrice: real := 2.95 * (0.8 * 1.0 * 1.0 * 1.0 * 0.7)
  const MaxPrice: real := 4.25 * (1.3 * 1.5 * 1.4 * 1.5 * 1.5)

  /** Each factor of a selection lies in the range of its table (fallbacks included). */
  lemma FactorsOfWithin(sel: Selection)
    ensures var f := FactorsOf(sel);
      && 2.95 <= f.base <= 4.25 && 0.8 <= f.size <= 1.3 && 1.0 <= f.material <= 1.5
      && 1.0 <= f.finish <= 1.4 && 1.0 <= f.branding <= 1.5 && 0.7 <= f.quantity <= 1.5
  {
    FactorBounds(BoxTypes, sel, "boxType", FallbackBasePrice, 2.95, 4.25);
    FactorBounds(Sizes, sel, "size", 1.0, 0.8, 1.3);
    FactorBounds(Materials, sel, "material", 1.0, 1.0, 1.5);
    FactorBounds(Finishes, sel, "finish", 1.0, 1.0, 1.4);
    FactorBounds(Brandings, sel, "branding", 1.0, 1.0, 1.5);
    FactorBounds(QuantityTiers, sel, "quantity", 1.0, 0.7, 1.5);
  }

  /** Ordering the factors componentwise orders the estimates. */
  lemma EstimateMonotone(lo: Factors, f: Factors)
    requires 0.0 < lo.base <= f.base && 0.0 < lo.size <= f.size && 0.0 < lo.material <= f.material
    requires 0.0 < lo.finish <= f.finish && 0.0 < lo.branding <= f.branding && 0.0 < lo.quantity <= f.quantity
    ensures 0.0 < Estimate(lo) <= Estimate(f)
  {
    MulMonotone(lo.size, f.size, lo.material, f.material);
    MulMonotone(lo.size * lo.material, f.size * f.material, lo.finish, f.finish);
    MulMonotone(lo.size * lo.material * lo.finish, f.size * f.material * f.finish, lo.branding, f.branding);
    MulMonotone(lo.size * lo.material * lo.finish * lo.branding, f.size * f.material * f.finish * f.branding,
                lo.quantity, f.quantity);
    MulMonotone(lo.base, f.base, lo.size * lo.material * lo.finish * lo.branding * lo.quantity,
                f.size * f.material * f.finish * f.branding * f.quantity);
  }

  /** Factors within the tables' ranges give an estimate between the extremes. */
  lemma EstimateBounds(f: Factors)
    requires 2.95 <= f.base <= 4.25 && 0.8 <= f.size <= 1.3 && 1.0 <= f.material <= 1.5
    requires 1.0 <= f.finish <= 1.4 && 1.0 <= f.branding <= 1.5 && 0.7 <= f.quantity <= 1.5
    ensures 0.0 < MinPrice <= Estimate(f) <= MaxPrice
  {
    EstimateMonotone(Factors(2.95, 0.8, 1.0, 1.0, 1.0, 0.7), f);
    EstimateMonotone(f, Factors(4.25, 1.3, 1.5, 1.4, 1.5, 1.5));
  }

  /**
   * Every estimate is strictly positive and lies between the cheapest and the dearest
   * combination of the tables, whatever ids the record holds (unknown ids fall back).
   */
  lemma PriceBounds(sel: Selection)
    ensures 0.0 < MinPrice <= CalculatePrice(sel) <= MaxPrice
  {
    FactorsOfWithin(sel);
    EstimateBounds(FactorsOf(sel));
  }

  /**
   * An id that no row of its table carries (or a key missing from the record) contributes
   * the fallback: 3.50 as the base price, 1 as a multiplier.
   */
  lemma UnknownIdFallsBack(table: seq<Row>, sel: Selection, key: string, fallback: real)
    requires key !in sel || forall i :: 0 <= i < |table| ==> table[i].id != sel[key]
    ensures FactorOr(Selected(table, sel, key), fallback) == fallback
  {
  }

  /** With an unknown box type the estimate is 3.50 times the multipliers. */
  lemma UnknownBoxTypePricedAtFallback(sel: Selection)
    requires "boxType" !in sel || forall i :: 0 <= i < |BoxTypes| ==> BoxTypes[i].id != sel["boxType"]
    ensures FactorsOf(sel).base == 3.50
  {
    UnknownIdFallsBack(BoxTypes, sel, "boxType", FallbackBasePrice);
  }

  /** The quantity tiers' multipliers never rise from one tier to the next. */
  lemma QuantityTiersNonIncreasing(i: nat, j: nat)
    requires i <= j < |QuantityTiers|
    ensures QuantityTiers[i].factor >= QuantityTiers[j].factor
  {
  }

  /** Each id of a table with distinct ids finds its own row. */
  lemma FindOwnRow(table: seq<Row>, k: nat)
    requires k < |table|
    requires forall i, j :: 0 <= i < j < |table| ==> table[i].id != table[j].id
    ensures Find(table, table[k].id) == Some(table[k].factor)
  {
  }

  lemma QuantityIdsDistinct()
    ensures forall i, j :: 0 <= i < j < |QuantityTiers| ==> QuantityTiers[i].id != QuantityTiers[j].id
  {
  }

  /** Changing one key changes at most the factor read from that key. */
  lemma ChangeKeepsOtherFactors(sel: Selection, key: string, value: string)
    ensures var f, g := FactorsOf(sel), FactorsOf(OptionChange(sel, key, value));
      && (key != "boxType" ==> g.base == f.base) && (key != "size" ==> g.size == f.size)
      && (key != "material" ==> g.material == f.material) && (key != "finish" ==> g.finish == f.finish)
      && (key != "branding" ==> g.branding == f.branding) && (key != "quantity" ==> g.quantity == f.quantity)
  {
  }

  /** Choosing quantity tier `k` changes the quantity multiplier to that tier's and nothing else. */
  lemma ChooseQuantityTier(sel: Selection, k: nat)
    requires k < |QuantityTiers|
    ensures FactorsOf(OptionChange(sel, "quantity", QuantityTiers[k].id))
         == FactorsOf(sel).(quantity := QuantityTiers[k].factor)
  {
    ChangeKeepsOtherFactors(sel, "quantity", QuantityTiers[k].id);
    QuantityIdsDistinct();
    FindOwnRow(QuantityTiers, k);
    assert QuantityTiers[k].factor != 0.0;
  }

  /** Ordering more (a later quantity tier) never raises the estimate per unit. */
  lemma LargerTierNeverDearer(sel: Selection, i: nat, j: nat)
    requires i <= j < |QuantityTiers|
    ensures CalculatePrice(OptionChange(sel, "quantity", QuantityTiers[j].id))
         <= CalculatePrice(OptionChange(sel, "quantity", QuantityTiers[i].id))
  {
    ChooseQuantityTier(sel, i);
    ChooseQuantityTier(sel, j);
    QuantityTiersNonIncreasing(i, j);
    var f := FactorsOf(sel);
    FactorsOfWithin(sel);
    EstimateMonotone(f.(quantity := QuantityTiers[j].factor), f.(quantity := QuantityTiers[i].factor));
  }

  /** `toFixed(2)` on an exact value: the nearest whole number of cents, halves rounded up. */
  function Cents(price: real): (c: int)
    ensures c as real - 0.5 <= price * 100.0 < c as real + 0.5
  {
    (price * 100.0 + 0.5).Floor
  }

  /**
   * The displayed price: a numeral for the whole units, a point, and exactly two digits
   * that read back as the cents.
   */
  function PriceText(cents: nat): (s: string)
    ensures |s| >= 4 && s[|s| - 3] == '.'
    ensures |s| > 4 ==> s[0] != '0'
    ensures Numerals.AllDigits(s[..|s| - 3]) && Numerals.ParseNat(s[..|s| - 3]) == cents / 100
    ensures Numerals.IsDigit(s[|s| - 2]) && Numerals.IsDigit(s[|s| - 1])
    ensures 10 * Numerals.DigitValue(s[|s| - 2]) + Numerals.DigitValue(s[|s| - 1]) == cents % 100
  {
    var units := Numerals.NatToString(cents / 100);
    Numerals.ParseNatToString(cents / 100);
    var s := units + "." + [Numerals.DigitChar(cents % 100 / 10), Numerals.DigitChar(cents % 10)];
    assert s[..|s| - 3] == units;
    s
  }

  lemma DefaultBoxAndSize()
    ensures FactorsOf(DefaultSelection).base == 4.25 && FactorsOf(DefaultSelection).size == 1.0
  {
    assert DefaultSelection["boxType"] == "magnetic" && DefaultSelection["size"] == "medium";
    assert Find(BoxTypes, "magnetic") == Some(4.25);
    assert Find(Sizes, "medium") == Some(1.0);
  }

  lemma DefaultMaterialAndFinish()
    ensures FactorsOf(DefaultSelection).material == 1.2 && FactorsOf(DefaultSelection).finish == 1.0
  {
    assert DefaultSelection["material"] == "premium" && DefaultSelection["finish"] == "matte";
    assert Find(Materials, "premium") == Some(1.2);
    assert Find(Finishes, "matte") == Some(1.0);
  }

  lemma DefaultBrandingAndQuantity()
    ensures FactorsOf(DefaultSelection).branding == 1.5 && FactorsOf(DefaultSelection).quantity == 1.0
  {
    assert DefaultSelection["branding"] == "foil-stamping" && DefaultSelection["quantity"] == "1000";
    assert Find(Brandings, "foil-stamping") == Some(1.5);
    assert Find(QuantityTiers, "1000") == Some(1.0);
  }

  /** The text shown for a selection's estimate. */
  function DisplayedPrice(sel: Selection): string {
    PriceBounds(sel);
    PriceText(Cents(CalculatePrice(sel)))
  }

  /** The default selection's factors: 4.25, 1.0, 1.2, 1.0, 1.5 and 1.0. */
  lemma DefaultFactors()
    ensures FactorsOf(DefaultSelection) == Factors(4.25, 1.0, 1.2, 1.0, 1.5, 1.0)
  {
    DefaultBoxAndSize();
    DefaultMaterialAndFinish();
    DefaultBrandingAndQuantity();
  }

  /** The default selection is estimated at 7.65, which is 765 cents. */
  lemma DefaultPrice()
    ensures CalculatePrice(DefaultSelection) == 7.65
    ensures Cents(CalculatePrice(DefaultSelection)) == 765
  {
    DefaultFactors();
    assert Estimate(Factors(4.25, 1.0, 1.2, 1.0, 1.5, 1.0)) == 7.65;
  }

  lemma PriceTextOf765()
    ensures PriceText(765) == "7.65"
  {
    assert Numerals.NatToString(7) == "7";
  }

  /** The default selection is displayed as "7.65". */
  lemma DefaultDisplayedPrice()
    ensures DisplayedPrice(DefaultSelection) == "7.65"
  {
    DefaultPrice();
    PriceTextOf765();
  }
}
