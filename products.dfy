/**
 * The synthetic product-record builder of scripts/generate_data.py.
 *
 * Money, weights and lengths are integers in hundredths (cents, centi-kg,
 * millimetres x10); `round(x, 2)` becomes the rounding done by the draw.
 * The metadata dictionary is the datatype `Metadata`, one optional field per
 * key that only some records carry.
 */
module ProductData {
  import opened Wrappers
  import opened Decimal
  import opened Rand

  const RandomSeed: int := 91
  const DefaultRecords: nat := 10000

  const Categories: seq<string> := ["Electronics", "Appliances", "Apparel", "Furniture"]
  const Brands: seq<string> := ["HonesTech", "Lumina", "Apex", "EcoSmart", "Titan", "RoughEdge"]
  const Tags: seq<string> := ["new-arrival", "top-rated", "discounted", "eco-friendly"]
  const SensorTypes: seq<string> := ["motion", "temperature", "humidity"]
  const Accuracies: seq<string> := ["high", "medium", "low"]
  const Materials: seq<string> := ["wood", "metal", "plastic", "composite"]
  const Flags: seq<bool> := [true, false]

  // Ranges, in hundredths where the source rounds to two decimals.
  const MsrpLo: nat := 1000
  const MsrpHi: nat := 100000
  const WeightLo: nat := 50
  const WeightHi: nat := 5000
  const DimensionLo: nat := 5000
  const DimensionHi: nat := 20000
  const BatteryLo: nat := 1
  const BatteryHi: nat := 24

  datatype Pricing = Pricing(msrp: nat, salePrice: Option<nat>)
  datatype Specs = Specs(weightKg: int, batteryLifeHours: Option<int>, wireless: Option<bool>)
  datatype Sensor = Sensor(kind: string, accuracy: string)
  datatype Dimensions = Dimensions(length: int, width: int, height: int)
  datatype Metadata = Metadata(
    pricing: Pricing,
    tags: seq<string>,
    specs: Specs,
    sensors: Option<seq<Sensor>>,
    dimensionsCm: Option<Dimensions>,
    material: Option<string>,
    assemblyRequired: Option<bool>)

  /** One row: (name, category, brand, metadata). */
  datatype Record = Record(name: string, category: string, brand: string, metadata: Metadata)

  // ---------------------------------------------------------------- names

  /** f"{brand} {category} Item {index}": starts with the brand, then the category, ends with the number. */
  function ItemName(brand: string, category: string, index: nat): (name: string)
    ensures |name| > |brand| + |category| + |NatToString(index)|
    ensures name[..|brand|] == brand
    ensures name[|brand| + 1..|brand| + 1 + |category|] == category
    ensures name[|name| - |NatToString(index)|..] == NatToString(index)
  {
    brand + " " + category + " Item " + NatToString(index)
  }

  /** The characters after the last space of s (all of s if it has none). */
  function AfterLastSpace(s: string): string {
    if s == [] || s[|s| - 1] == ' ' then [] else AfterLastSpace(s[..|s| - 1]) + [s[|s| - 1]]
  }

  /** The item number a name ends with, if it ends with one. */
  function ItemIndex(name: string): Option<nat> {
    var digits := AfterLastSpace(name);
    if digits != [] && AllDigits(digits) then Some(ParseDigits(digits)) else None
  }

  lemma {:induction false} AfterLastSpaceOf(prefix: string, digits: string)
    requires AllDigits(digits)
    ensures AfterLastSpace(prefix + " " + digits) == digits
  {
    if digits == [] {
      assert prefix + " " + digits == prefix + " ";
    } else {
      var init := digits[..|digits| - 1];
      assert prefix + " " + digits == (prefix + " " + init) + [digits[|digits| - 1]];
      AfterLastSpaceOf(prefix, init);
    }
  }

  /** The item number can be read back from the name, whatever the brand and category. */
  lemma ItemIndexOfName(brand: string, category: string, index: nat)
    ensures ItemIndex(ItemName(brand, category, index)) == Some(index)
  {
    var digits := NatToString(index);
    assert ItemName(brand, category, index) == (brand + " " + category + " Item") + " " + digits;
    AfterLastSpaceOf(brand + " " + category + " Item", digits);
    ParseNatToString(index);
  }

  // ---------------------------------------------------------------- one record

  /** `random() > 0.8`, for random() = k / 2^53. */
  predicate OnSale(k: nat) {
    5 * k > 4 * UnitScale
  }

  /**
   * round(msrp * uniform(0.5, 0.9), 2) in cents, where uniform(0.5, 0.9) is
   * 0.5 + 0.4 * k / 2^53: half of msrp at the least, msrp at the most.
   */
  function SalePrice(msrp: nat, k: nat): (sale: nat)
    requires k < UnitScale
    ensures msrp <= 2 * sale && sale <= msrp
  {
    (msrp * (5 * UnitScale + 4 * k) + 5 * UnitScale) / (10 * UnitScale)
  }

  /**
   * Whatever rounding to whole cents is applied, as long as the result is at
   * most half a cent below the exact msrp * (0.5 + 0.4 * k / 2^53), the sale
   * price is at least half of msrp less one cent.
   */
  lemma SalePriceAnyRounding(msrp: nat, k: nat, sale: nat)
    requires k < UnitScale
    requires 10 * UnitScale * sale + 5 * UnitScale >= msrp * (5 * UnitScale + 4 * k)
    ensures msrp <= 2 * sale + 1
  {
    var s := UnitScale;
    assert msrp * (5 * s + 4 * k) >= msrp * (5 * s) by { MulMonotone(msrp, 5 * s, 5 * s + 4 * k); }
    assert 10 * s * sale + 5 * s >= 5 * s * msrp;
    assert 5 * s * (2 * sale + 1) >= 5 * s * msrp;
  }

  /** The new metadata is the old one with only what the category adds. */
  function CategoryFieldsAt(w: Stream, p: nat, category: string, m: Metadata): (d: Drawn<Metadata>)
    ensures d.value.pricing == m.pricing && d.value.tags == m.tags && d.value.specs.weightKg == m.specs.weightKg
    ensures category == "Electronics" ==>
      d.value.dimensionsCm == m.dimensionsCm && d.value.material == m.material
      && d.value.assemblyRequired == m.assemblyRequired
    ensures category == "Furniture" ==>
      d.value.specs == m.specs && d.value.sensors == m.sensors
    ensures category != "Electronics" && category != "Furniture" ==> d == Drawn(m, p)
  {
    if category == "Electronics" then
      var hours := RandIntAt(w, p, BatteryLo, BatteryHi);
      var wireless := ChoiceAt(w, hours.next, Flags);
      var kind := ChoiceAt(w, wireless.next, SensorTypes);
      var accuracy := ChoiceAt(w, kind.next, Accuracies);
      Drawn(m.(specs := m.specs.(batteryLifeHours := Some(hours.value), wireless := Some(wireless.value)),
               sensors := Some([Sensor(kind.value, accuracy.value)])),
            accuracy.next)
    else if category == "Furniture" then
      var length := UniformCentsAt(w, p, DimensionLo, DimensionHi);
      var width := UniformCentsAt(w, length.next, DimensionLo, DimensionHi);
      var height := UniformCentsAt(w, width.next, DimensionLo, DimensionHi);
      var material := ChoiceAt(w, height.next, Materials);
      var assembly := ChoiceAt(w, material.next, Flags);
      Drawn(m.(dimensionsCm := Some(Dimensions(length.value, width.value, height.value)),
               material := Some(material.value),
               assemblyRequired := Some(assembly.value)),
            assembly.next)
    else
      Drawn(m, p)
  }

  /** The optional sale price: present exactly when the trigger draw exceeds 0.8. */
  function SaleAt(w: Stream, p: nat, msrp: nat): (d: Drawn<Option<nat>>)
    ensures d.value.Some? <==> OnSale(RandomAt(w, p).value)
    ensures d.value.Some? ==> msrp <= 2 * d.value.value && d.value.value <= msrp
  {
    var trigger := RandomAt(w, p);
    if OnSale(trigger.value) then
      var ratio := RandomAt(w, trigger.next);
      Drawn(Some(SalePrice(msrp, ratio.value)), ratio.next)
    else
      Drawn(None, trigger.next)
  }

  /** Record i (0-based) built from the draws at positions p, p + 1, ... */
  function RecordAt(w: Stream, p: nat, i: nat): (d: Drawn<Record>)
    ensures p + 7 <= d.next <= p + 13
  {
    var category := ChoiceAt(w, p, Categories);
    var brand := ChoiceAt(w, category.next, Brands);
    var msrp := UniformCentsAt(w, brand.next, MsrpLo, MsrpHi);
    var tags := SampleAt(w, msrp.next, Tags);
    var weight := UniformCentsAt(w, tags.next, WeightLo, WeightHi);
    var base := Metadata(Pricing(msrp.value, None), tags.value, Specs(weight.value, None, None),
                         None, None, None, None);
    var shaped := CategoryFieldsAt(w, weight.next, category.value, base);
    var sale := SaleAt(w, shaped.next, msrp.value);
    var metadata := shaped.value.(pricing := shaped.value.pricing.(salePrice := sale.value));
    Drawn(Record(ItemName(brand.value, category.value, i + 1), category.value, brand.value, metadata),
          sale.next)
  }

  /** The first n records of a stream seeded afresh, and the draws they used. */
  function Batch(w: Stream, n: nat): (d: Drawn<seq<Record>>)
    ensures |d.value| == n
  {
    if n == 0 then Drawn([], 0)
    else
      var prev := Batch(w, n - 1);
      var last := RecordAt(w, prev.next, n - 1);
      Drawn(prev.value + [last.value], last.next)
  }

  /** Python's range(n) is empty for n <= 0. */
  function Count(n: int): nat {
    if n < 0 then 0 else n
  }

  // ---------------------------------------------------------------- record shape

  predicate HasElectronicsField(m: Metadata) {
    m.specs.batteryLifeHours.Some? || m.specs.wireless.Some? || m.sensors.Some?
  }

  predicate ElectronicsFields(m: Metadata) {
    && m.specs.batteryLifeHours.Some? && BatteryLo <= m.specs.batteryLifeHours.value <= BatteryHi
    && m.specs.wireless.Some?
    && m.sensors.Some? && |m.sensors.value| == 1
    && m.sensors.value[0].kind in SensorTypes && m.sensors.value[0].accuracy in Accuracies
  }

  predicate HasFurnitureField(m: Metadata) {
    m.dimensionsCm.Some? || m.material.Some? || m.assemblyRequired.Some?
  }

  predicate InDimensionRange(x: int) {
    DimensionLo <= x <= DimensionHi
  }

  predicate FurnitureFields(m: Metadata) {
    && m.dimensionsCm.Some?
    && InDimensionRange(m.dimensionsCm.value.length)
    && InDimensionRange(m.dimensionsCm.value.width)
    && InDimensionRange(m.dimensionsCm.value.height)
    && m.material.Some? && m.material.value in Materials
    && m.assemblyRequired.Some?
  }

  predicate PricingValid(pr: Pricing) {
    && MsrpLo <= pr.msrp <= MsrpHi
    && (pr.salePrice.Some? ==> pr.msrp <= 2 * pr.salePrice.value && pr.salePrice.value <= pr.msrp)
  }

  predicate TagsValid(tags: seq<string>) {
    |tags| == 2 && tags[0] != tags[1] && tags[0] in Tags && tags[1] in Tags
  }

  /** What every record at 0-based position i satisfies. */
  predicate WellFormed(r: Record, i: nat) {
    && r.category in Categories
    && r.brand in Brands
    && r.name == ItemName(r.brand, r.category, i + 1)
    && PricingValid(r.metadata.pricing)
    && TagsValid(r.metadata.tags)
    && WeightLo <= r.metadata.specs.weightKg <= WeightHi
    && (HasElectronicsField(r.metadata) <==> r.category == "Electronics")
    && (r.category == "Electronics" ==> ElectronicsFields(r.metadata))
    && (HasFurnitureField(r.metadata) <==> r.category == "Furniture")
    && (r.category == "Furniture" ==> FurnitureFields(r.metadata))
  }

  lemma RecordAtWellFormed(w: Stream, p: nat, i: nat)
    ensures WellFormed(RecordAt(w, p, i).value, i)
    ensures RecordAt(w, p, i).next > p
  {
  }

  /** Every record of every batch has the shape above, whatever the stream. */
  lemma {:induction false} BatchWellFormed(w: Stream, n: nat)
    ensures forall i :: 0 <= i < n ==> WellFormed(Batch(w, n).value[i], i)
  {
    if n > 0 {
      BatchWellFormed(w, n - 1);
      RecordAtWellFormed(w, Batch(w, n - 1).next, n - 1);
    }
  }

  /** A shorter batch is a prefix of a longer one. */
  lemma {:induction false} BatchPrefix(w: Stream, n: nat, m: nat)
    requires n <= m
    ensures Batch(w, n).value == Batch(w, m).value[..n]
    ensures n < m ==> Batch(w, n).next < Batch(w, m).next
  {
    if n < m {
      BatchPrefix(w, n, m - 1);
      RecordAtWellFormed(w, Batch(w, m - 1).next, m - 1);
      assert Batch(w, m).value[..m - 1] == Batch(w, m - 1).value;
    }
  }

  /** No two records of a batch share a name. */
  lemma BatchNamesDistinct(w: Stream, n: nat, i: nat, j: nat)
    requires i < j < n
    ensures Batch(w, n).value[i].name != Batch(w, n).value[j].name
  {
    BatchWellFormed(w, n);
    var ri, rj := Batch(w, n).value[i], Batch(w, n).value[j];
    ItemIndexOfName(ri.brand, ri.category, i + 1);
    ItemIndexOfName(rj.brand, rj.category, j + 1);
  }

  // ---------------------------------------------------------------- the builder

  /**
   * One pass of the loop of generate_product_data: draw the category, brand,
   * msrp, tags and weight, add the category's fields, maybe a sale price, and
   * build record i.
   */
  method NextRecord(rng: Random, i: nat) returns (record: Record)
    modifies rng
    ensures rng.seed == old(rng.seed)
    ensures Drawn(record, rng.cursor) == RecordAt(rng.Draws(), old(rng.cursor), i)
  {
    var category := rng.Choice(Categories);
    var brand := rng.Choice(Brands);
    var msrp := rng.UniformCents(MsrpLo, MsrpHi);
    var tags := rng.Sample(Tags);
    var weight := rng.UniformCents(WeightLo, WeightHi);
    var metadata := Metadata(Pricing(msrp, None), tags, Specs(weight, None, None), None, None, None, None);
    metadata := AddCategoryFields(rng, category, metadata);
    var trigger := rng.Random();
    if OnSale(trigger) {
      // uniform(0.5, 0.9) is 0.5 + 0.4 * random()
      var ratio := rng.Random();
      metadata := metadata.(pricing := metadata.pricing.(salePrice := Some(SalePrice(msrp, ratio))));
    }
    record := Record(ItemName(brand, category, i + 1), category, brand, metadata);
  }

  /** The category-specific keys that the loop body adds to the metadata. */
  method AddCategoryFields(rng: Random, category: string, m: Metadata) returns (metadata: Metadata)
    modifies rng
    ensures rng.seed == old(rng.seed)
    ensures Drawn(metadata, rng.cursor) == CategoryFieldsAt(rng.Draws(), old(rng.cursor), category, m)
  {
    metadata := m;
    if category == "Electronics" {
      var hours := rng.RandInt(BatteryLo, BatteryHi);
      var wireless := rng.Choice(Flags);
      metadata := metadata.(specs := metadata.specs.(batteryLifeHours := Some(hours), wireless := Some(wireless)));
      var kind := rng.Choice(SensorTypes);
      var accuracy := rng.Choice(Accuracies);
      metadata := metadata.(sensors := Some([Sensor(kind, accuracy)]));
    } else if category == "Furniture" {
      var length := rng.UniformCents(DimensionLo, DimensionHi);
      var width := rng.UniformCents(DimensionLo, DimensionHi);
      var height := rng.UniformCents(DimensionLo, DimensionHi);
      metadata := metadata.(dimensionsCm := Some(Dimensions(length, width, height)));
      var material := rng.Choice(Materials);
      metadata := metadata.(material := Some(material));
      var assembly := rng.Choice(Flags);
      metadata := metadata.(assemblyRequired := Some(assembly));
    }
  }

  /**
   * generate_product_data(num_records): reseed the generator, then append one
   * record per iteration, record i named with item number i + 1.
   */
  method GenerateProductData(rng: Random, numRecords: int := DefaultRecords) returns (data: seq<Record>)
    modifies rng
    ensures rng.seed == RandomSeed
    ensures Drawn(data, rng.cursor) == Batch(rng.generator(RandomSeed), Count(numRecords))
  {
    rng.Seed(RandomSeed);
    ghost var w := rng.Draws();
    data := [];
    var i := 0;
    while i < numRecords
      invariant 0 <= i <= Count(numRecords)
      invariant rng.seed == RandomSeed && rng.Draws() == w
      invariant Drawn(data, rng.cursor) == Batch(w, i)
    {
      ghost var before := rng.cursor;
      var record := NextRecord(rng, i);
      assert Drawn(record, rng.cursor) == RecordAt(w, before, i);
      data := data + [record];
      i := i + 1;
    }
    assert i == Count(numRecords) && w == rng.generator(RandomSeed);
  }

  /** Two runs with the same count give the same records, whatever happened before. */
  method RerunReproduces(rng: Random, n: int) returns (first: seq<Record>, second: seq<Record>)
    modifies rng
    ensures first == second && |first| == Count(n)
    ensures forall i :: 0 <= i < |first| ==> WellFormed(first[i], i)
  {
    first := GenerateProductData(rng, n);
    second := GenerateProductData(rng, n);
    BatchWellFormed(rng.generator(RandomSeed), Count(n));
  }
}
