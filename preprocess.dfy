/** `preprocess_input`: overwrite each categorical entry of the input
    dictionary, in place and in field order, with its code, then read all
    twelve values out, in insertion order, as the model's one input row. */
module Preprocessing {
  import opened Encoding
  import opened FeatureDict
  import opened Form

  ghost predicate AllPending(e: seq<Entry>)
    requires IsLayout(e)
  {
    forall f: Field :: Pending(e, f)
  }

  /** The label stored in the column of `f`. */
  function LabelAt(e: seq<Entry>, f: Field): string
    requires IsLayout(e) && Pending(e, f)
  {
    e[Position(f)].1.s
  }

  /** The five stored labels in field order. */
  function EntryLabels(e: seq<Entry>): (ls: seq<string>)
    requires IsLayout(e) && AllPending(e)
    ensures |ls| == |Fields| && forall j :: 0 <= j < |Fields| ==> ls[j] == LabelAt(e, Fields[j])
  {
    [LabelAt(e, RainfallPattern), LabelAt(e, SoilType), LabelAt(e, DrainageProperties),
     LabelAt(e, CropType), LabelAt(e, GrowthStage)]
  }

  /** The first `n` labels, in field order, are keys of their tables. */
  ghost predicate KnownUpTo(e: seq<Entry>, n: nat)
    requires IsLayout(e) && AllPending(e)
  {
    forall j :: 0 <= j < n && j < |Fields| ==> LabelAt(e, Fields[j]) in Mapping(Fields[j])
  }

  /** The entry a line writes: the field's key with its label's code. */
  function Coded(e: seq<Entry>, f: Field): Entry
    requires IsLayout(e) && Pending(e, f) && LabelAt(e, f) in Mapping(f)
  {
    (Key(f), Num(Mapping(f)[LabelAt(e, f)] as real))
  }

  /** The dictionary once the first `n` assignment lines have run. */
  function EncodeUpTo(e: seq<Entry>, n: nat): seq<Entry>
    requires IsLayout(e) && AllPending(e) && n <= |Fields| && KnownUpTo(e, n)
  {
    seq(12, i requires 0 <= i < 12 =>
      if 6 <= i < 6 + n then Coded(e, Fields[i - 6]) else e[i])
  }

  /** After the first `n` lines the key order is unchanged, the first `n`
      categorical columns hold their codes and every other entry, the seven
      measurements included, is as it was. */
  lemma EncodeUpToLayout(e: seq<Entry>, n: nat)
    requires IsLayout(e) && AllPending(e) && n <= |Fields| && KnownUpTo(e, n)
    ensures IsLayout(EncodeUpTo(e, n))
    ensures forall i :: 0 <= i < 12 && IsNumericColumn(i) ==> EncodeUpTo(e, n)[i] == e[i]
    ensures forall j :: 0 <= j < n ==>
      EncodeUpTo(e, n)[Position(Fields[j])] == Coded(e, Fields[j])
    ensures forall j :: n <= j < |Fields| ==>
      EncodeUpTo(e, n)[Position(Fields[j])] == e[Position(Fields[j])]
  {
    var r := EncodeUpTo(e, n);
    forall i | 6 <= i < 11 ensures r[i].0 == FeatureOrder[i] {
      PositionOfField(i - 6);
    }
    forall j | 0 <= j < |Fields| ensures Position(Fields[j]) == 6 + j {
      PositionOfField(j);
    }
  }

  /** One line `data[key] = mapping[data[key]]`: the lookup raises before
      anything is assigned. */
  method EncodeField(data: Dict, f: Field) returns (r: Result<int>)
    requires data.Valid() && IsLayout(data.entries) && Pending(data.entries, f)
    modifies data
    ensures data.Valid() && IsLayout(data.entries)
    ensures r == Encode(f, old(LabelAt(data.entries, f)))
    ensures r.Ok? ==> data.entries == old(data.entries)[Position(f) := (Key(f), Num(r.value as real))]
    ensures r.Err? ==> data.entries == old(data.entries)
  {
    var v := data.Get(Key(f));
    assert Keys(data.entries)[Position(f)] == Key(f);
    assert v == Ok(data.entries[Position(f)].1);
    r := Encode(f, v.value.s);
    if r.Ok? {
      data.Put(Key(f), Num(r.value as real));
      assert Keys(data.entries) == old(Keys(data.entries));
      assert data.entries == old(data.entries)[Position(f) := (Key(f), Num(r.value as real))];
    }
  }

  /** `preprocess_input(data)`. On success the row is the dictionary's
      values once all five labels are encoded; on a missing key the
      dictionary keeps the codes already written and the error names the
      first unknown label. */
  method Preprocess(data: Dict) returns (r: Result<seq<real>>)
    requires data.Valid() && IsLayout(data.entries) && AllPending(data.entries)
    modifies data
    ensures data.Valid() && IsLayout(data.entries)
    ensures data.entries == EncodeUpTo(old(data.entries), KnownPrefix(EntryLabels(old(data.entries)), 0))
    ensures r.Ok? <==> KnownPrefix(EntryLabels(old(data.entries)), 0) == |Fields|
    ensures r.Ok? ==> (forall i :: 0 <= i < 12 ==> data.entries[i].1.Num?) && r.value == Values(data.entries)
    ensures r.Err? ==>
      r.error == KeyError(LabelAt(old(data.entries), Fields[KnownPrefix(EntryLabels(old(data.entries)), 0)]))
  {
    ghost var e := data.entries;
    var c := EncodeLine(data, e, 0);  // rainfall_pattern
    if c.Err? {
      return Err(c.error);
    }
    c := EncodeLine(data, e, 1);  // soil_type
    if c.Err? {
      return Err(c.error);
    }
    c := EncodeLine(data, e, 2);  // drainage_properties
    if c.Err? {
      return Err(c.error);
    }
    c := EncodeLine(data, e, 3);  // crop_type
    if c.Err? {
      return Err(c.error);
    }
    c := EncodeLine(data, e, 4);  // growth_stage
    if c.Err? {
      return Err(c.error);
    }
    AllKnown(e);
    r := Ok(Values(data.entries));
  }

  /** Line `n` of the five, run on the dictionary the earlier lines left:
      it either takes the dictionary one field further or raises the
      KeyError of the first unknown label. */
  method EncodeLine(data: Dict, ghost e: seq<Entry>, n: nat) returns (c: Result<int>)
    requires IsLayout(e) && AllPending(e) && n < |Fields|
    requires KnownUpTo(e, n)
    requires data.Valid() && data.entries == EncodeUpTo(e, n)
    modifies data
    ensures data.Valid() && IsLayout(data.entries)
    ensures c.Ok? <==> LabelAt(e, Fields[n]) in Mapping(Fields[n])
    ensures c.Ok? ==> KnownUpTo(e, n + 1) && data.entries == EncodeUpTo(e, n + 1)
    ensures c.Err? ==>
      data.entries == EncodeUpTo(e, n) &&
      KnownPrefix(EntryLabels(e), 0) == n && c.error == KeyError(LabelAt(e, Fields[n]))
  {
    NextStep(e, n);
    c := EncodeField(data, Fields[n]);
  }

  /** What line `n` of the five finds and leaves: the label it looks up is
      still the original one; a known label takes the dictionary one step
      further; an unknown one is the first unknown label. */
  lemma NextStep(e: seq<Entry>, n: nat)
    requires IsLayout(e) && AllPending(e) && n < |Fields| && KnownUpTo(e, n)
    ensures IsLayout(EncodeUpTo(e, n)) && Pending(EncodeUpTo(e, n), Fields[n])
    ensures LabelAt(EncodeUpTo(e, n), Fields[n]) == LabelAt(e, Fields[n])
    ensures LabelAt(e, Fields[n]) in Mapping(Fields[n]) ==>
      KnownUpTo(e, n + 1) &&
      EncodeUpTo(e, n + 1) == EncodeUpTo(e, n)[Position(Fields[n]) := Coded(e, Fields[n])]
    ensures LabelAt(e, Fields[n]) !in Mapping(Fields[n]) ==> KnownPrefix(EntryLabels(e), 0) == n
  {
    EncodeUpToLayout(e, n);
    PositionOfField(n);
    assert Pending(e, Fields[n]);
  }

  /** After the fifth line every label was known and every value is a number. */
  lemma AllKnown(e: seq<Entry>)
    requires IsLayout(e) && AllPending(e) && KnownUpTo(e, |Fields|)
    ensures KnownPrefix(EntryLabels(e), 0) == |Fields|
    ensures forall i :: 0 <= i < 12 ==> EncodeUpTo(e, |Fields|)[i].1.Num?
  {
  }

  /** The row read out of a fully encoded dictionary has twelve entries: the
      seven measurements unchanged at their own columns and each field's
      code at the field's column. */
  lemma RowLayout(e: seq<Entry>)
    requires IsLayout(e) && AllPending(e) && KnownPrefix(EntryLabels(e), 0) == |Fields|
    ensures forall i :: 0 <= i < 12 ==> EncodeUpTo(e, |Fields|)[i].1.Num?
    ensures var row := Values(EncodeUpTo(e, |Fields|));
      |row| == 12 &&
      (forall i :: 0 <= i < 12 && IsNumericColumn(i) ==> row[i] == e[i].1.x) &&
      (forall f: Field :: row[Position(f)] == Mapping(f)[LabelAt(e, f)] as real)
  {
    AllKnown(e);
    var row := Values(EncodeUpTo(e, |Fields|));
    forall f: Field ensures row[Position(f)] == Mapping(f)[LabelAt(e, f)] as real {
      var j :| 0 <= j < |Fields| && Fields[j] == f;
    }
  }

  /** The dictionary literal holds the form's labels, in field order. */
  lemma InputDictLabels(inp: RawInput)
    ensures AllPending(InputDict(inp)) && EntryLabels(InputDict(inp)) == FormLabels(inp)
  {
    var e := InputDict(inp);
    assert EntryLabels(e) == FormLabels(inp);
  }

  /** Every label of the dictionary is known exactly when every label of the
      record is. */
  lemma KnownPrefixMatchesOptions(inp: RawInput)
    ensures AllPending(InputDict(inp))
    ensures KnownPrefix(EntryLabels(InputDict(inp)), 0) == |Fields| <==> InOptions(inp)
  {
    InputDictLabels(inp);
    var ls := FormLabels(inp);
    var k := KnownPrefix(ls, 0);
    if k == |Fields| {
      forall f: Field ensures LabelOf(inp, f) in Mapping(f) {
        var j :| 0 <= j < |Fields| && Fields[j] == f;
      }
    }
  }

  /** The dictionary route agrees with the typed record: preprocessing the
      dictionary built from an input succeeds exactly when the record's
      labels all encode, then yields the reference row, and otherwise fails
      on the same label. */
  lemma PreprocessMatchesAssembler(inp: RawInput)
    ensures AllPending(InputDict(inp))
    ensures var e := InputDict(inp); var k := KnownPrefix(EntryLabels(e), 0);
      (k == |Fields| <==> EncodeRecord(inp).Ok?) &&
      (k == |Fields| ==>
        (forall i :: 0 <= i < 12 ==> EncodeUpTo(e, k)[i].1.Num?) &&
        Values(EncodeUpTo(e, k)) == FeatureVector(inp, EncodeRecord(inp).value)) &&
      (k < |Fields| ==> EncodeRecord(inp) == Err(KeyError(LabelAt(e, Fields[k]))))
  {
    var e := InputDict(inp);
    InputDictLabels(inp);
    KnownPrefixMatchesOptions(inp);
    var k := KnownPrefix(EntryLabels(e), 0);
    if k == |Fields| {
      RowMatchesFeatureVector(inp);
    } else {
      EncodeRecordError(inp);
      assert EntryLabels(e)[k] == LabelAt(e, Fields[k]);
    }
  }

  /** For known labels the row read from the dictionary is the typed
      reference row. */
  lemma RowMatchesFeatureVector(inp: RawInput)
    requires InOptions(inp)
    ensures AllPending(InputDict(inp)) && KnownPrefix(EntryLabels(InputDict(inp)), 0) == |Fields|
    ensures forall i :: 0 <= i < 12 ==> EncodeUpTo(InputDict(inp), |Fields|)[i].1.Num?
    ensures Values(EncodeUpTo(InputDict(inp), |Fields|)) == FeatureVector(inp, EncodeRecord(inp).value)
  {
    var e := InputDict(inp);
    InputDictLabels(inp);
    KnownPrefixMatchesOptions(inp);
    RowLayout(e);
    var row := Values(EncodeUpTo(e, |Fields|));
    var codes := EncodeRecord(inp).value;
    var v := FeatureVector(inp, codes);
    ReferenceColumns(inp, codes);
    forall i | 0 <= i < 12 && !IsNumericColumn(i) ensures row[i] == v[i] {
      var f := ColumnField(i);
      RecordCode(inp, f);
    }
  }

  /** Column by column, a reference row holds the dictionary literal's
      measurements and each field's code. */
  lemma ReferenceColumns(inp: RawInput, c: Codes)
    ensures var v := FeatureVector(inp, c);
      |v| == 12 &&
      (forall i :: 0 <= i < 12 && IsNumericColumn(i) ==> v[i] == InputDict(inp)[i].1.x) &&
      (forall f: Field :: v[Position(f)] == CodeOf(c, f) as real)
  {
  }

  /** The record's code of a field is its label's entry in the field's table. */
  lemma RecordCode(inp: RawInput, f: Field)
    requires InOptions(inp)
    ensures CodeOf(EncodeRecord(inp).value, f) == Mapping(f)[LabelOf(inp, f)]
  {
    assert Encode(f, LabelOf(inp, f)) == Ok(CodeOf(EncodeRecord(inp).value, f));
  }
}
