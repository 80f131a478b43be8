/** What the sidebar form hands to the prediction button: seven slider
    readings and five selectbox labels, the dictionary literal that collects
    them, and the twelve-column layout the trained regressor expects. */
module Form {
  import opened Encoding
  import opened FeatureDict

  datatype RawInput = RawInput(
    temperature: real,
    humidity: real,
    windSpeed: real,
    evapotranspiration: real,
    soilMoistureLevels: real,
    waterRetentionCapacity: real,
    cropWaterRequirement: real,
    rainfallPattern: string,
    soilType: string,
    drainageProperties: string,
    cropType: string,
    growthStage: string)

  /** The selectbox label the input holds for a categorical field. */
  function LabelOf(inp: RawInput, f: Field): string {
    match f
    case RainfallPattern => inp.rainfallPattern
    case SoilType => inp.soilType
    case DrainageProperties => inp.drainageProperties
    case CropType => inp.cropType
    case GrowthStage => inp.growthStage
  }

  /** The slider bounds: the only values the form can produce. */
  predicate InSliderRanges(inp: RawInput) {
    -10.0 <= inp.temperature <= 50.0 &&
    0.0 <= inp.humidity <= 100.0 &&
    0.0 <= inp.windSpeed <= 20.0 &&
    0.0 <= inp.evapotranspiration <= 10.0 &&
    0.0 <= inp.soilMoistureLevels <= 100.0 &&
    0.0 <= inp.waterRetentionCapacity <= 100.0 &&
    0.0 <= inp.cropWaterRequirement <= 25.0
  }

  /** Each selectbox offers exactly the keys of its field's mapping. */
  predicate InOptions(inp: RawInput) {
    forall f: Field :: LabelOf(inp, f) in Mapping(f)
  }

  predicate FromForm(inp: RawInput) {
    InSliderRanges(inp) && InOptions(inp)
  }

  /** The key order of the input dictionary, which is the column order the
      model was trained on. */
  const FeatureOrder: seq<string> := [
    "temperature", "humidity", "wind_speed", "evapotranspiration",
    "soil_moisture_levels", "water_retention_capacity",
    "rainfall_pattern", "soil_type", "drainage_properties", "crop_type", "growth_stage",
    "crop_water_requirement"]

  /** The columns that hold slider readings; the other five hold labels. */
  predicate IsNumericColumn(i: int) {
    0 <= i < 6 || i == 11
  }

  /** The column of a categorical field: the five fields sit, in encoding
      order, between the six leading measurements and the water requirement. */
  function Position(f: Field): (p: nat)
    ensures 6 <= p < 11 && !IsNumericColumn(p)
    ensures FeatureOrder[p] == Key(f)
  {
    match f
    case RainfallPattern => 6
    case SoilType => 7
    case DrainageProperties => 8
    case CropType => 9
    case GrowthStage => 10
  }

  lemma PositionOfField(j: int)
    requires 0 <= j < |Fields|
    ensures Position(Fields[j]) == 6 + j
  {
  }

  /** Every non-numeric column belongs to one categorical field. */
  lemma {:induction false} ColumnField(i: int) returns (f: Field)
    requires 0 <= i < 12 && !IsNumericColumn(i)
    ensures Position(f) == i
  {
    f := Fields[i - 6];
    PositionOfField(i - 6);
  }

  /** A twelve-entry dictionary whose keys follow FeatureOrder and whose
      measurement columns hold numbers. */
  ghost predicate IsLayout(e: seq<Entry>) {
    |e| == 12 &&
    (forall i :: 0 <= i < 12 ==> e[i].0 == FeatureOrder[i]) &&
    (forall i :: 0 <= i < 12 && IsNumericColumn(i) ==> e[i].1.Num?)
  }

  /** The categorical column of `f` still holds a label. */
  ghost predicate Pending(e: seq<Entry>, f: Field)
    requires IsLayout(e)
  {
    e[Position(f)].1.Text?
  }

  /** The dictionary literal built when the button is pressed. */
  function InputDict(inp: RawInput): (e: seq<Entry>)
    ensures IsLayout(e) && DistinctKeys(e)
    ensures forall f: Field :: e[Position(f)].1 == Text(LabelOf(inp, f))
  {
    [("temperature", Num(inp.temperature)),
     ("humidity", Num(inp.humidity)),
     ("wind_speed", Num(inp.windSpeed)),
     ("evapotranspiration", Num(inp.evapotranspiration)),
     ("soil_moisture_levels", Num(inp.soilMoistureLevels)),
     ("water_retention_capacity", Num(inp.waterRetentionCapacity)),
     ("rainfall_pattern", Text(inp.rainfallPattern)),
     ("soil_type", Text(inp.soilType)),
     ("drainage_properties", Text(inp.drainageProperties)),
     ("crop_type", Text(inp.cropType)),
     ("growth_stage", Text(inp.growthStage)),
     ("crop_water_requirement", Num(inp.cropWaterRequirement))]
  }

  /** The five codes of one input. */
  datatype Codes = Codes(rainfall: int, soil: int, drainage: int, crop: int, growthStage: int)

  function CodeOf(c: Codes, f: Field): int {
    match f
    case RainfallPattern => c.rainfall
    case SoilType => c.soil
    case DrainageProperties => c.drainage
    case CropType => c.crop
    case GrowthStage => c.growthStage
  }

  /** The five labels in field order. */
  function FormLabels(inp: RawInput): (ls: seq<string>)
    ensures |ls| == |Fields| && forall j :: 0 <= j < |Fields| ==> ls[j] == LabelOf(inp, Fields[j])
  {
    [inp.rainfallPattern, inp.soilType, inp.drainageProperties, inp.cropType, inp.growthStage]
  }

  /** Encodes the five labels in field order; the first unknown label is
      the error (`EncodeRecordError`). */
  function EncodeRecord(inp: RawInput): (r: Result<Codes>)
    ensures r.Ok? <==> InOptions(inp)
    ensures r.Ok? ==> forall f: Field :: Encode(f, LabelOf(inp, f)) == Ok(CodeOf(r.value, f))
  {
    var rainfall :- Encode(RainfallPattern, inp.rainfallPattern);
    var soil :- Encode(SoilType, inp.soilType);
    var drainage :- Encode(DrainageProperties, inp.drainageProperties);
    var crop :- Encode(CropType, inp.cropType);
    var stage :- Encode(GrowthStage, inp.growthStage);
    Ok(Codes(rainfall, soil, drainage, crop, stage))
  }

  /** A failed encoding names the first label, in field order, that is not
      a key of its table. */
  lemma EncodeRecordError(inp: RawInput)
    requires EncodeRecord(inp).Err?
    ensures EncodeRecord(inp).error == KeyError(LabelOf(inp, Fields[KnownPrefix(FormLabels(inp), 0)]))
  {
    var k := KnownPrefix(FormLabels(inp), 0);
    assert FormLabels(inp)[k] == LabelOf(inp, Fields[k]);
  }

  /** The row the model sees, written field by field from a typed record:
      the reference the dictionary-based preprocessing is proved to match. */
  function FeatureVector(inp: RawInput, c: Codes): seq<real> {
    [inp.temperature, inp.humidity, inp.windSpeed, inp.evapotranspiration,
     inp.soilMoistureLevels, inp.waterRetentionCapacity,
     c.rainfall as real, c.soil as real, c.drainage as real, c.crop as real, c.growthStage as real,
     inp.cropWaterRequirement]
  }

  /** Whatever the form offers is accepted by the encoder. */
  lemma FormInputEncodes(inp: RawInput)
    requires FromForm(inp)
    ensures EncodeRecord(inp).Ok?
  {
  }
}
