/** The "Predict Water Requirement" button: build the input dictionary,
    preprocess it, ask the regressor for one prediction, then work out the
    suggestions from the raw form values. The trained regressor is opaque
    and is passed in as a function from the feature row to a prediction. */
module App {
  import opened Encoding
  import opened FeatureDict
  import opened Form
  import opened Preprocessing
  import opened Advisory

  /** What a successful press shows: the prediction and the advice lines. */
  datatype Outcome = Outcome(prediction: real, advice: seq<string>)

  /** A press of the button. A label outside its table raises the KeyError
      out of preprocessing, before the model or the rules are reached. */
  method PressPredict(inp: RawInput, predict: seq<real> -> real) returns (out: Result<Outcome>)
    ensures out.Ok? <==> InOptions(inp)
    ensures out.Ok? ==>
      out.value.prediction == predict(FeatureVector(inp, EncodeRecord(inp).value)) &&
      out.value.advice == Displayed(Advice(inp, Rules))
    ensures out.Err? ==> EncodeRecord(inp) == Err(out.error)
  {
    var data := new Dict(InputDict(inp));
    PreprocessMatchesAssembler(inp);
    KnownPrefixMatchesOptions(inp);
    var row := Preprocess(data);
    if row.Err? {
      return Err(row.error);
    }
    var prediction := predict(row.value);
    var suggestions := Suggestions(inp);
    out := Ok(Outcome(prediction, Displayed(suggestions)));
  }

  /** The soil message is never shown, whoever supplies the input: the rule
      needs the label "Sandy", and that label makes preprocessing raise
      before the rules run. */
  lemma SoilAdviceUnreachable(inp: RawInput)
    requires EncodeRecord(inp).Ok?
    ensures SoilAdvice !in Displayed(Advice(inp, Rules))
  {
    assert LabelOf(inp, SoilType) in Mapping(SoilType);
    SandyAdviceNeverShown(inp);
    MessagesDistinct(SandySoil, SandySoil);
  }

  /** An input made with the form's own widgets always gets a prediction. */
  lemma FormInputIsPredicted(inp: RawInput)
    requires FromForm(inp)
    ensures EncodeRecord(inp).Ok?
    ensures SoilAdvice !in Displayed(Advice(inp, Rules))
  {
    FormInputEncodes(inp);
    SoilAdviceUnreachable(inp);
  }

  /** A label outside the soil table is rejected with a KeyError naming it
      when the rainfall label before it is known. */
  lemma UnknownSoilLabelIsRejected(inp: RawInput)
    requires inp.rainfallPattern in RainfallMapping
    requires inp.soilType == "unknown"
    ensures EncodeRecord(inp) == Err(KeyError("unknown"))
  {
    assert "unknown" !in SoilTypeMapping;
  }
}
