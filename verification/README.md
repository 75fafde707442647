# Heart-disease screening page: feature encoder and scaling step

The screening page (`app.py`) collects eleven clinical inputs through a form.
It turns them into the fixed-order, 15-column row a pre-trained classifier
was fitted on. It then rescales the five continuous columns in place with a
fitted scaler before the classifier runs. This project models those two
steps in Dafny:

- `text.dfy` (module `Text`) defines Python's `needle in hay` on strings. The
  encoder uses it for sex, chest-pain type and resting ECG. The lemmas state
  when a code does or does not occur in a label.
- `encoder.dfy` (module `Encoder`) covers the form's option strings, one form
  submission (`FormInput`), the column names and their positions, and the
  encoder `Encode`. `Encode` returns the row, or the `KeyError` raised by an
  unknown ST-slope label. The lemmas state slot by slot what a row holds and
  what each option of the form encodes to. They also show that the encoding
  loses nothing on the form's domain: `Decode` reads every submission back.
- `scaling.dfy` (module `Scaling`) looks up the continuous columns by name,
  gives the pure meaning of `row[cols]` and `row[cols] = vals`, and has the
  in-place method `ScaleNumeric` on an `array<real>`. The scaler itself is a
  function parameter (`transform`). What is proved is that only the five
  named columns change, and that they receive the transform's outputs in
  the scaler's column order.
- `wrappers.dfy` (module `Wrappers`) holds `Option` and `Result`.

Numbers: the integer inputs (age, resting blood pressure, cholesterol,
maximum heart rate) are `int`. Oldpeak and every slot of the row are `real`.
The imputed cholesterol 237.0 is therefore exact, and no floating-point
rounding is modelled.

Three points where the code differs from what its column names suggest.
The model follows the code in each:

- The columns `cp_ATA`, `cp_NAP`, `cp_TA` read as a one-hot encoding with
  ASY as the reference level. The code sets `cp_TA` by the substring test
  `"TA" in cp_type`, so the ATA option sets both `cp_ATA` and `cp_TA`.
  `Encode` does what the code does. The one-hot encoding is modelled beside
  it (see Findings).
- `sex_encoded` is not a comparison with a fixed value. The code tests
  whether the sex label contains "Laki-laki", and so does the model.
- An ST-slope label outside `{"Up", "Flat", "Down"}` makes the dictionary
  lookup raise. It is modelled as the `UnknownSlope` failure of `Encode`,
  not as a precondition.

## Model

| member | source | states |
|---|---|---|
| `Text.OccursAt` | app.py:63-68 | the needle sits at offset i exactly when it fits inside the string there and matches it character by character |
| `Text.Contains` | app.py:57-68 | Python's `needle in hay`: true exactly when some offset i has hay[i..i+|needle|] == needle; the empty needle and every prefix are in the string, and a contained needle is no longer than the string |
| `Text.ContainsTransitive` | app.py:63-65 | a run of a run of a string is a run of it; this is why every label containing "ATA" also contains "TA" |
| `Text.MissingCharExcludes` | app.py:57-68 | a code with a character the label lacks is not in the label |
| `Text.MissingPairExcludes` | app.py:63-65 | a code whose first two characters never stand side by side in the label is not in it |
| `Encoder.FromForm` | app.py:37-49 | the inputs the widgets can produce (the number-input bounds and the select-box options); every such input has a slope label the dictionary knows |
| `Encoder.FeatureNamesLayout` | app.py:74-79 | the row has 15 distinct column names, and each slot constant is the position of its name |
| `Encoder.Flag` | app.py:71 | `1 if cond else 0`: the value is 0 or 1, and 1 exactly when the condition holds |
| `Encoder.Mentions` | app.py:63-68 | a code indicator is 0 or 1, and 1 exactly when the code occurs in the label |
| `Encoder.YesFlag` | app.py:58-59 | fasting blood sugar and exercise angina are 0 or 1, and 1 exactly for the answer "Ya" |
| `Encoder.SlopeMapIsOptionPositions` | app.py:60 | the slope dictionary's keys are exactly the three slope options, each mapped to its position among them |
| `Encoder.SlopeCode` | app.py:60-61 | the slope lookup succeeds exactly for "Up", "Flat" and "Down", and gives their positions 0, 1, 2 |
| `Encoder.CholesterolValue` | app.py:70 | the cholesterol value sent on is never the sentinel 0, and a nonzero reading is kept as it is |
| `Encoder.Encode` | app.py:57-86 | fails exactly for an unknown slope label; otherwise gives 15 slots, every indicator slot 0 or 1, and a slope slot naming the chosen slope |
| `Encoder.NumericPassThrough` | app.py:81-82 | age, resting blood pressure, maximum heart rate and oldpeak land unchanged in slots 0, 1, 4, 5 |
| `Encoder.CholesterolImputation` | app.py:70-71 | a zero reading gives 237.0 in slot 2; any other reading is copied; slot 14 is 1 exactly when the reading was zero |
| `Encoder.AnswerFlags` | app.py:57-59 | sex is 1 iff its label contains "Laki-laki"; fasting blood sugar and exercise angina are 1 iff the answer is "Ya" |
| `Encoder.CodeIndicators` | app.py:63-68 | cp_ATA, cp_NAP, cp_TA, ecg_ST and ecg_LVH are each 1 exactly when their code occurs in the chosen label |
| `Encoder.AsymptomaticIndicators` | app.py:63-65 | the ASY option sets no chest-pain indicator |
| `Encoder.AtypicalAnginaIndicators` | app.py:63-65 | the ATA option sets cp_ATA and also cp_TA, and not cp_NAP |
| `Encoder.NonAnginalIndicators` | app.py:63-65 | the NAP option sets cp_NAP only |
| `Encoder.TypicalAnginaIndicators` | app.py:63-65 | the TA option sets cp_TA only |
| `Encoder.NormalEcgIndicators` | app.py:67-68 | the Normal ECG option sets neither ECG indicator |
| `Encoder.StAbnormalityIndicators` | app.py:67-68 | the ST-T option sets ecg_ST only |
| `Encoder.LvhIndicators` | app.py:67-68 | the LVH option sets ecg_LVH only |
| `Encoder.SexOptionFlags` | app.py:57 | sex is encoded 1 exactly for the "Laki-laki (M)" option |
| `Encoder.AtaForcesTa` | app.py:63-65 | for every label, cp_ATA = 1 forces cp_TA = 1 |
| `Encoder.ChestPainRoundTrip` | app.py:63-65 | the four chest-pain options get four different indicator triples, so each can be read back |
| `Encoder.EcgRoundTrip` | app.py:67-68 | the three ECG options get three different indicator pairs, so each can be read back |
| `Encoder.DecodeEncode` | app.py:57-86 | every submission the form can produce encodes without error and is read back whole from its row |
| `Encoder.EncodeInjective` | app.py:57-86 | two different form submissions never produce the same row |
| `Encoder.MissingFlagSeparatesImputation` | app.py:70-71 | a missing reading and a real reading of 237 share slot 2 and differ only in the missing flag |
| `Encoder.ScenarioAEncoding` | app.py:57-86 | a 50-year-old asymptomatic man with every flag "no" encodes to [50, 120, 200, 0, 150, 0, 1, 0, 0, 0, 0, 0, 0, 0, 0] |
| `Encoder.ScenarioBEncoding` | app.py:57-86 | the same man without a cholesterol reading gets 237.0 in slot 2 and 1 in slot 14, with nothing else changed |
| `Encoder.AtypicalAnginaSetsTwoIndicators` | app.py:63-65 | a submission the form can produce sets two chest-pain indicators at once |
| `Encoder.OneHotChestPain` | app.py:63-65 | the corrected chest-pain slots are 0 or 1, and at most one is set whatever the label |
| `Encoder.EncodeOneHot` | app.py:57-86 | the corrected row fails exactly when `Encode` fails, and differs from it at most in the three chest-pain slots |
| `Encoder.OneHotOfOptions` | app.py:63-65 | on the form's options the corrected slots are the one-hot of the option's position, with ASY as the reference level |
| `Encoder.OneHotVersusSubstring` | app.py:63-65 | on the form's options the corrected and the written chest-pain triples agree on cp_ATA and cp_NAP, and differ on cp_TA exactly for ATA |
| `Encoder.OneHotDiffersOnlyForAtypical` | app.py:63-65 | on every form submission the corrected row equals the row as written except in slot cp_TA, and there exactly when ATA was chosen |
| `Scaling.ColumnIndex` | app.py:89-90 | a label lookup finds a column exactly when the name is in the header, and returns its first position |
| `Scaling.ColumnIndices` | app.py:89-90 | selecting several columns succeeds exactly when all are present, and gives the position of each, in order |
| `Scaling.ColumnIndexOfDistinct` | app.py:74-79 | in a header without repeated names, looking up the name at a position gives that position |
| `Scaling.LookupOfDistinct` | app.py:74-79 | in such a header, looking up the names at some positions gives those positions back |
| `Scaling.NumColsPositions` | app.py:89-90 | the continuous columns are the names of slots 0, 1, 2, 4, 5, and selecting them by name reaches those slots |
| `Scaling.Select` | app.py:90 | `row[cols]` has one entry per selected position, in the order selected |
| `Scaling.Assign` | app.py:90 | `row[cols] = vals` keeps the row's length and changes no position that is not listed |
| `Scaling.AssignWritten` | app.py:90 | with distinct positions, each listed position receives its value |
| `Scaling.ScalingFrame` | app.py:89-90 | after scaling, the ten other slots equal the unscaled ones, and the continuous slots hold the transform's outputs in scaler order |
| `Scaling.UnscaledSlotsAreCategorical` | app.py:74-90 | the slots scaling leaves alone are the indicators and the slope code |
| `Scaling.ScaleNumeric` | app.py:89-90 | the in-place step writes the transform's outputs into the five continuous slots and leaves every other slot unchanged; an output of the wrong width leaves the row as it was |

## Left out

- The page layout, form widgets and result rendering (app.py:26-51, 96-102, 140-150) are user interface. `FromForm` records the widget bounds and options as a predicate.
- Loading the classifier and the scaler from their files (app.py:18-22) is file I/O with foreign deserialisation.
- The fitted scaler's arithmetic (app.py:90) is a black box. It is the `transform` parameter of `ScaleNumeric`, so only the frame of the step is modelled.
- The classifier's `predict` and `predict_proba` (app.py:93-94), and the confidence percentage shown from them (app.py:99, 102), are a foreign floating-point model and its formatting.
- Reading the reference CSV, its seeded 50-row sample and the page cache (app.py:111-119) are file I/O, library randomness and framework caching.
- The SHAP kernel explainer, its values, the `Explanation` object and the waterfall plot (app.py:123-146) are a foreign attribution algorithm and plotting. The HTML helper `st_shap` (app.py:10-13) is presentation glue.
- `Scaling.ScaleNumeric`: `transform` is total. The scaler's own check of the columns it receives (their number and names against those it was fitted on), which raises on a mismatch, is not modelled. The only error modelled is a result of the wrong width.
- `Scaling.AssignWritten`: states the written values only for distinct positions. The continuous columns are distinct, and what pandas does with a repeated column key is not modelled.

## Findings

| source | as written | input that shows it | evidently intended | confidence | as-written member | corrected member |
|---|---|---|---|---|---|---|
| app.py:65 | `cp_TA = 1 if "TA" in cp_type else 0` tests a substring, and "TA" occurs inside "ATA: Atypical Angina" | chest pain "ATA: Atypical Angina" gives cp_ATA = 1 and cp_TA = 1 | one-hot chest-pain columns with ASY as reference: the ATA option sets cp_ATA only | likely; not executed | `Encoder.AtypicalAnginaSetsTwoIndicators` | `Encoder.OneHotDiffersOnlyForAtypical` |
