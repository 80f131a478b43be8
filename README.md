# Water-requirement form: encoding, feature layout and advice

A Dafny model of the request pipeline of a one-page Streamlit app that
predicts a crop's irrigation water requirement. When the "Predict Water
Requirement" button is pressed, the app

1. collects seven slider readings and five selectbox labels into a Python
   dictionary whose key order is the column order the trained random-forest
   regressor expects;
2. runs `preprocess_input`, which overwrites, in place and one field after
   the other, each categorical label with its integer code from a constant
   table (a label outside its table raises `KeyError`), then reads the
   twelve values out as one row;
3. hands the row to the regressor;
4. checks five independent threshold rules over the raw form values, in
   order and with no early exit, appending one fixed message per rule that
   fires, and shows either those messages or a single "well-balanced" line.

The model is split by component:

- `encoding.dfy` (module `Encoding`): the five code tables, `Encode`
  (the table lookup with its `KeyError`), an independent decoding table per
  field, and the proofs that each table is a bijection onto `0..n-1`.
- `feature_dict.dfy` (module `FeatureDict`): the insertion-ordered Python
  dictionary as a class `Dict` whose `entries` field the methods reassign;
  an assignment to an existing key keeps its position.
- `form.dfy` (module `Form`): the form's input record, the slider ranges and
  selectbox options, the dictionary literal, the twelve-column layout and a
  typed reference assembler (`EncodeRecord`, `FeatureVector`).
- `preprocess.dfy` (module `Preprocessing`): `preprocess_input` as a method
  that updates the dictionary field by field, proved against `EncodeUpTo`
  (the dictionary after the first `n` assignments), and the proof that the
  dictionary route yields exactly the typed reference row.
- `advisory.dfy` (module `Advisory`): the five rules as written, the
  appending method `Suggestions` proved against the filter `Advice`, the
  display choice and the per-line rendering loop.
- `app.dfy` (module `App`): the button handler, with the regressor passed in
  as a function.

Two behaviours of the code are proved as facts rather than corrected. The
soil rule compares the label with `"Sandy"`, while every label the soil
selectbox offers is lower-case; moreover `"Sandy"` is not a key of the soil
table, so an input carrying it fails preprocessing before the rules run.
The soil message can therefore never be shown (`App.SoilAdviceUnreachable`).
The drainage rule fires on `'good'` although its message speaks of poor
drainage (`Advisory.DrainageAdviceIffGood`).

## Model

| member | source | states |
|---|---|---|
| `Encoding.CodeBook` | app.py:11-15 | each field's decoding list is the exact inverse of its table: every code has one label and every label's code indexes back to it |
| `Encoding.CodesAreExactRange` | app.py:11-15 | the codes of the rainfall, soil, drainage, crop and growth-stage tables are exactly 0..2, 0..4, 0..2, 0..4 and 0..5, one label per code |
| `Encoding.CodeBookIsBijection` | app.py:11-15 | a table listed by code has as many keys as codes, uses exactly the codes 0..n-1 and gives distinct keys distinct codes |
| `Encoding.Encode` | app.py:19-23 | a table lookup succeeds exactly for the table's keys, returns the code whose decoding is the label, and otherwise is a KeyError naming the label |
| `Encoding.Decode` | app.py:11-15 | a code in range decodes to a key of the table whose code it is; any other code has no label |
| `Encoding.DecodeEncode` | app.py:11-15 | decoding the code of a known label gives the label back |
| `Encoding.EncodeDecode` | app.py:11-15 | encoding the label of an in-range code gives the code back |
| `Encoding.EncodeInjective` | app.py:11-15 | two labels with the same code are the same label |
| `Encoding.KnownPrefix` | app.py:19-23 | the number of assignment lines that succeed: every earlier label is known and the label at that index, if any, is not |
| `FeatureDict.Values` | app.py:24 | the row has one entry per dictionary entry, each the entry's number, in insertion order |
| `FeatureDict.Dict.constructor` | app.py:51-64 | a dictionary literal holds its entries in the order written |
| `FeatureDict.Dict.Get` | app.py:19-23 | a subscript returns the value stored under the key, or a KeyError naming the key exactly when it is absent |
| `FeatureDict.Dict.Put` | app.py:19-23 | assigning to an existing key replaces its value in place and keeps the key order; a new key is appended; keys stay distinct |
| `Form.Position` | app.py:51-64 | the five categorical fields occupy columns 6 to 10, in encoding order, under their own keys |
| `Form.InputDict` | app.py:51-64 | the dictionary's keys are the twelve feature names in the model's order, the measurements are numbers and each categorical column holds its label |
| `Form.EncodeRecord` | app.py:19-23 | the five labels encode exactly when each is a key of its table, and each code is its label's code |
| `Form.EncodeRecordError` | app.py:19-23 | a failed encoding is the KeyError of the first label, in field order, that its table lacks |
| `Form.FormInputEncodes` | app.py:43-47 | every combination the selectboxes offer is accepted by the encoder |
| `Preprocessing.EncodeUpToLayout` | app.py:19-23 | after the first n assignments the keys keep their order, the first n categorical columns hold their codes and every other entry, the seven measurements included, is unchanged at its position |
| `Preprocessing.EncodeField` | app.py:19 | one line `data[k] = mapping[data[k]]`: the code replaces the label in place, or the KeyError leaves the dictionary untouched |
| `Preprocessing.Preprocess` | app.py:18-24 | the dictionary ends as after the assignments that succeeded; on success the result is its twelve values in order, otherwise the KeyError of the first unknown label |
| `Preprocessing.EncodeLine` | app.py:19-23 | the next line, run on what the earlier lines left, either advances the dictionary by its field, exactly when the label is known, or leaves it and raises the KeyError naming the first unknown label |
| `Preprocessing.NextStep` | app.py:19-23 | each line still finds the original label; a known label advances the dictionary by one field; an unknown one is the first unknown |
| `Preprocessing.AllKnown` | app.py:19-24 | when all five labels are known the whole dictionary is numeric |
| `Preprocessing.RowLayout` | app.py:18-24 | the row has twelve entries, the measurements unchanged in their columns and each field's code in its column |
| `Preprocessing.InputDictLabels` | app.py:51-64 | the dictionary literal holds the form's five labels in field order |
| `Preprocessing.KnownPrefixMatchesOptions` | app.py:19-23 | all five assignments succeed exactly when every label is one its selectbox offers |
| `Preprocessing.PreprocessMatchesAssembler` | app.py:51-65 | preprocessing the dictionary succeeds exactly when the typed record encodes, gives the reference row in the model's column order, and otherwise fails on the same label |
| `Preprocessing.RowMatchesFeatureVector` | app.py:51-65 | for known labels the row is temperature, humidity, wind speed, evapotranspiration, soil moisture, retention, the five codes, water requirement |
| `Preprocessing.ReferenceColumns` | app.py:51-64 | the reference row holds the dictionary literal's measurements in their columns and each field's code in the field's column |
| `Preprocessing.RecordCode` | app.py:19-23 | the code the record holds for a field is its label's entry in that field's table |
| `Advisory.AdviceOfRules` | app.py:74-94 | the advice of the five rules is the concatenation of each rule's own check, in rule order |
| `Advisory.Suggestions` | app.py:74-94 | the appended list is exactly the messages of the rules that fire, in rule order |
| `Advisory.MessagesDistinct` | app.py:78-101 | no two rules share a message and no rule message is the well-balanced line |
| `Advisory.AdviceMembership` | app.py:74-94 | a rule's message is in the advice if and only if the rule is checked and fires |
| `Advisory.AdviceFromFiredRules` | app.py:74-94 | every advice line is the message of a rule that fired |
| `Advisory.AdviceDistributes` | app.py:74-94 | checking one run of rules and then another yields all messages of the first run before any of the second: no rule's message overtakes an earlier one |
| `Advisory.DrainageAdviceIffGood` | app.py:93-94 | the poor-drainage message appears if and only if the drainage label is 'good' |
| `Advisory.SandyAdviceNeverShown` | app.py:77-78 | for any soil label the selectbox offers, the soil rule does not fire and its message is absent |
| `Advisory.ThresholdsAreStrict` | app.py:81-90 | evapotranspiration of 8.0, moisture of 15.0 and retention of 20.0 fire none of the three threshold rules |
| `Advisory.RuleCanFire` | app.py:81-94 | each rule other than the soil rule fires for some input within the slider ranges and selectbox options |
| `Advisory.Displayed` | app.py:97-101 | what is shown is never empty: the suggestions themselves or the single well-balanced line |
| `Advisory.DisplayedIsExclusive` | app.py:97-101 | for any input the display is either the non-empty suggestion list without the well-balanced line, or that line alone |
| `Advisory.Render` | app.py:97-101 | one bullet line per suggestion in order, or exactly the well-balanced line when there are none |
| `Advisory.ScenarioLowMoisture` | app.py:74-94 | moisture 10.0 with retention 50.0, evapotranspiration 3.0, loamy soil and moderate drainage yields only the irrigation message |
| `Advisory.ScenarioWellBalanced` | app.py:34-47 | the form as first shown (slider defaults, first option of each selectbox: 'moderate', 'sandy', 'poor', 'rice', 'flowering') is form input and shows only the well-balanced line |
| `App.PressPredict` | app.py:50-101 | a press yields a prediction exactly when all labels are known: the regressor applied to the reference row, with the displayed advice; otherwise the encoder's KeyError |
| `App.SoilAdviceUnreachable` | app.py:65-78 | whenever preprocessing succeeds, the soil message is not displayed |
| `App.FormInputIsPredicted` | app.py:34-66 | every input the widgets can produce gets a prediction and never the soil message |
| `App.UnknownSoilLabelIsRejected` | app.py:19-20 | a soil label "unknown" after a known rainfall label is refused with KeyError("unknown") |

## Left out

- Streamlit calls (title, header, sliders, selectboxes, button, `st.write`, `st.success`): presentation. The slider ranges and selectbox options are kept as the predicates `InSliderRanges` and `InOptions`; `Render` gives the text the advice block writes.
- Loading the pickled regressor and its internals: an opaque artifact of a foreign library. `PressPredict` takes the regressor as a function argument.
- The `:.2f` formatting of the prediction and the 0.1 slider step: floating-point display details. Measurements are `real`, not 64-bit floats.
- The footer markup and the current-year clock lookup: presentation and clock input.
- The numpy `reshape(1, -1)`: the row is modelled as one flat sequence of twelve numbers.
- Preprocessing.Preprocess: requires the dictionary shape the app builds (the twelve keys in order, measurements numeric, labels as strings); a dictionary missing one of the five keys, or holding a non-string label, is not modelled.
- Python's hashing of dictionary keys: lookups are modelled by position in the insertion-ordered entries.
