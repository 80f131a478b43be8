/** The five constant lookup tables that turn a categorical label into the
    integer code the regression model was trained on, and the lookup that
    raises a missing-key error for a label outside its table. */
module Encoding {

  /** The only failure of the pipeline: a dictionary subscript with a key
      that is not in the dictionary. It carries the missing key. */
  datatype Error = KeyError(key: string)

  datatype Result<T> = Ok(value: T) | Err(error: Error) {
    predicate IsFailure() { Err? }

    function PropagateFailure<U>(): Result<U>
      requires Err?
    {
      Err(error)
    }

    function Extract(): T
      requires Ok?
    {
      value
    }
  }

  datatype Option<T> = None | Some(value: T)

  /** The five categorical inputs, in the order they are encoded. */
  datatype Field = RainfallPattern | SoilType | DrainageProperties | CropType | GrowthStage

  const Fields: seq<Field> := [RainfallPattern, SoilType, DrainageProperties, CropType, GrowthStage]

  const RainfallMapping: map<string, int> := map["moderate" := 2, "low" := 1, "high" := 0]
  const SoilTypeMapping: map<string, int> :=
    map["sandy" := 3, "silty" := 4, "clay" := 0, "peaty" := 2, "loamy" := 1]
  const DrainageMapping: map<string, int> := map["poor" := 2, "moderate" := 1, "good" := 0]
  const CropMapping: map<string, int> :=
    map["rice" := 2, "wheat" := 4, "soybean" := 3, "cotton" := 0, "maize" := 1]
  const GrowthStageMapping: map<string, int> :=
    map["flowering" := 0, "fruiting" := 1, "vegetative" := 5, "seedling" := 4,
        "reproductive" := 3, "maturity" := 2]

  /** The key under which the field is stored in the input dictionary. */
  function Key(f: Field): string {
    match f
    case RainfallPattern => "rainfall_pattern"
    case SoilType => "soil_type"
    case DrainageProperties => "drainage_properties"
    case CropType => "crop_type"
    case GrowthStage => "growth_stage"
  }

  function Mapping(f: Field): map<string, int> {
    match f
    case RainfallPattern => RainfallMapping
    case SoilType => SoilTypeMapping
    case DrainageProperties => DrainageMapping
    case CropType => CropMapping
    case GrowthStage => GrowthStageMapping
  }

  /** The decoding table: the label whose code is the index. It is written
      independently of the mapping and proved to be its inverse. */
  function Labels(f: Field): seq<string> {
    match f
    case RainfallPattern => ["high", "low", "moderate"]
    case SoilType => ["clay", "loamy", "peaty", "sandy", "silty"]
    case DrainageProperties => ["good", "moderate", "poor"]
    case CropType => ["cotton", "maize", "rice", "soybean", "wheat"]
    case GrowthStage => ["flowering", "fruiting", "maturity", "reproductive", "seedling", "vegetative"]
  }

  /** `labels` lists the keys of `m` by code: every code 0..|labels|-1 is
      used exactly once and no other code is. */
  ghost predicate IsCodeBook(m: map<string, int>, labels: seq<string>) {
    (forall c :: 0 <= c < |labels| ==> labels[c] in m && m[labels[c]] == c) &&
    (forall k :: k in m ==> 0 <= m[k] < |labels| && labels[m[k]] == k)
  }

  lemma CodeBook(f: Field)
    ensures IsCodeBook(Mapping(f), Labels(f))
  {
    match f
    case RainfallPattern => RainfallCodeBook();
    case SoilType => SoilTypeCodeBook();
    case DrainageProperties => DrainageCodeBook();
    case CropType => CropCodeBook();
    case GrowthStage => GrowthStageCodeBook();
  }

  lemma RainfallCodeBook()
    ensures IsCodeBook(RainfallMapping, Labels(RainfallPattern))
  {
    assert RainfallMapping.Keys == {"moderate", "low", "high"};
  }

  lemma SoilTypeCodeBook()
    ensures IsCodeBook(SoilTypeMapping, Labels(SoilType))
  {
    assert SoilTypeMapping.Keys == {"sandy", "silty", "clay", "peaty", "loamy"};
  }

  lemma DrainageCodeBook()
    ensures IsCodeBook(DrainageMapping, Labels(DrainageProperties))
  {
    assert DrainageMapping.Keys == {"poor", "moderate", "good"};
  }

  lemma CropCodeBook()
    ensures IsCodeBook(CropMapping, Labels(CropType))
  {
    assert CropMapping.Keys == {"rice", "wheat", "soybean", "cotton", "maize"};
  }

  lemma GrowthStageCodeBook()
    ensures IsCodeBook(GrowthStageMapping, Labels(GrowthStage))
  {
    assert GrowthStageMapping.Keys ==
      {"flowering", "fruiting", "vegetative", "seedling", "reproductive", "maturity"};
  }

  /** The codes of each table are exactly 0..n-1, with n = 3, 5, 3, 5, 6,
      and no two labels share a code. */
  lemma CodesAreExactRange(f: Field)
    ensures |Mapping(f)| == |Labels(f)|
    ensures |Labels(f)| == match f
      case RainfallPattern => 3
      case SoilType => 5
      case DrainageProperties => 3
      case CropType => 5
      case GrowthStage => 6
    ensures forall c :: c in Mapping(f).Values <==> 0 <= c < |Labels(f)|
    ensures forall a, b :: a in Mapping(f) && b in Mapping(f) && Mapping(f)[a] == Mapping(f)[b] ==> a == b
  {
    CodeBook(f);
    CodeBookIsBijection(Mapping(f), Labels(f));
  }

  /** A code book's map has one key per code, uses exactly the codes
      0..|labels|-1 and gives distinct keys distinct codes. */
  lemma CodeBookIsBijection(m: map<string, int>, labels: seq<string>)
    requires IsCodeBook(m, labels)
    ensures |m| == |labels|
    ensures forall c :: c in m.Values <==> 0 <= c < |labels|
    ensures forall a, b :: a in m && b in m && m[a] == m[b] ==> a == b
  {
    forall c | 0 <= c < |labels| ensures c in m.Values {
      assert labels[c] in m && m[labels[c]] == c;
    }
    // the keys are the image of the codes under the decoding table
    assert m.Keys == set c | 0 <= c < |labels| :: labels[c];
    CardinalityOfImage(labels, |labels|);
  }

  /** Distinct labels at distinct indices: the image of 0..n-1 has n elements. */
  lemma {:induction false} CardinalityOfImage(labels: seq<string>, n: nat)
    requires n <= |labels|
    requires forall i, j :: 0 <= i < j < |labels| ==> labels[i] != labels[j]
    ensures |set c | 0 <= c < n :: labels[c]| == n
  {
    if n > 0 {
      CardinalityOfImage(labels, n - 1);
      var prefix := set c | 0 <= c < n - 1 :: labels[c];
      assert (set c | 0 <= c < n :: labels[c]) == prefix + {labels[n - 1]};
      assert labels[n - 1] !in prefix;
    }
  }

  /** `rainfall_mapping[label]` and its siblings: the code of the label, or
      the missing-key error. */
  function Encode(f: Field, text: string): (r: Result<int>)
    ensures r.Ok? <==> text in Mapping(f)
    ensures r.Ok? ==> 0 <= r.value < |Labels(f)| && Labels(f)[r.value] == text
    ensures r.Err? ==> r.error == KeyError(text)
  {
    CodeBook(f);
    if text in Mapping(f) then Ok(Mapping(f)[text]) else Err(KeyError(text))
  }

  /** The index of the first of `labels` (taken in field order, from `n`
      on) that is not a key of its field's table, or |Fields| when every one
      is: the number of assignments that succeed before the first KeyError. */
  function KnownPrefix(labels: seq<string>, n: nat): (k: nat)
    requires |labels| == |Fields| && n <= |Fields|
    ensures n <= k <= |Fields|
    ensures forall j :: n <= j < k ==> labels[j] in Mapping(Fields[j])
    ensures k < |Fields| ==> labels[k] !in Mapping(Fields[k])
    decreases |Fields| - n
  {
    if n == |Fields| || labels[n] !in Mapping(Fields[n]) then n
    else KnownPrefix(labels, n + 1)
  }

  /** The inverse of Encode: the label of a code, if the code is in range. */
  function Decode(f: Field, code: int): (r: Option<string>)
    ensures r.Some? <==> 0 <= code < |Labels(f)|
    ensures r.Some? ==> r.value in Mapping(f) && Mapping(f)[r.value] == code
  {
    CodeBook(f);
    if 0 <= code < |Labels(f)| then Some(Labels(f)[code]) else None
  }

  lemma DecodeEncode(f: Field, text: string)
    requires text in Mapping(f)
    ensures Encode(f, text).Ok? && Decode(f, Encode(f, text).value) == Some(text)
  {
  }

  lemma EncodeDecode(f: Field, code: int)
    requires 0 <= code < |Labels(f)|
    ensures Decode(f, code).Some? && Encode(f, Decode(f, code).value) == Ok(code)
  {
  }

  /** Encoding loses nothing: two labels with the same code are the same label. */
  lemma EncodeInjective(f: Field, a: string, b: string)
    requires Encode(f, a).Ok? && Encode(f, a) == Encode(f, b)
    ensures a == b
  {
  }
}
