# Flight-delay prediction: feature encoding and risk banding

This project models the prediction run of a small web page that estimates the chance that a
flight is delayed (`predecir` in `script.js`). The user gives five form fields: flight code,
origin port, destination port, date and time. The page turns them into the fixed-length numeric
vector a pre-trained classifier expects, asks the classifier for a probability, and shows it as a
percentage with a LOW, MEDIUM or HIGH band.

The model follows the run stage by stage:

- **Temporal** (`temporal.dfy`): the native month 0..11, Sunday-first weekday 0..6 and hour
  become month 1..12, a Monday-first weekday `(d + 6) % 7` and the hour.
- **Scaling** (`scaling.dfy`): `(v - mean[i]) / scale[i]`, where `i` is the first index of the
  feature's name in `scaler.features`. Its inverse is proved as well.
- **Columns** (`columns.dfy`): the one-hot column names `Flight_` + code, `PortFrom_` +
  upper-cased code and `PortTo_` + upper-cased code.
- **Assembly** (`assembly.dfy`): a zero vector as long as `columns`, the three scaled values at
  the columns named `MES`, `DIA_SEMANA` and `HORA_SALIDA`, and a 1 at each one-hot column the
  configuration knows. An unknown column is skipped. `Vector` describes the result as a
  sequence, and `AssembleInput` builds it in place in an `array<real>`.
- **Risk** (`risk.dfy`): the fraction times 100 is the percentage. Above 50 is HIGH, above 20
  is MEDIUM, and anything else is LOW.
- **Pipeline** (`pipeline.dfy`): the model-loaded check, the required-field check, the encoding,
  the classifier call and the band. `PredictionOf` is the function and `Predict` is the method
  that uses the array assembly.

The shared pieces are `search.dfy`, which holds `indexOf` as `IndexOf` returning `Option<nat>`,
`schema.dfy`, which holds the configuration record and its errors, and `wrappers.dfy`.

Parameters stand in for the inputs and outside calls:

- The trained classifier is a parameter of type `Option<seq<real> -> real>`. `None` means
  the model is not loaded: it is still loading, or loading failed.
- The configuration document `model_config.json` is a parameter of type `Option<ModelConfig>`.
- The `Date` built from the form is given by the values of `getMonth()`, `getDay()` and
  `getHours()`.

All arithmetic is on `real`, so it is exact.

The model follows the code of `script.js`, with three decisions where the code leaves a case
open or where exact arithmetic cannot follow it:

- **Scaler lookup.** When a feature is missing from `scaler.features`, `indexOf` returns -1.
  `mean[-1]` is then `undefined` (JavaScript arrays have no negative indexing), so the scaled
  value is NaN. The model reports `UnknownScalerFeature` instead, because a `real` cannot be
  NaN and a silently wrong scale is worse than a refusal. It also reports parameter tables
  that are too short (`MissingScalerParameter`) and a zero scale (`ZeroScale`), where the
  script would compute NaN or an infinity.
- **Numeric column lookup.** When a numeric feature has no column, the code writes to
  `inputData[-1]`. That is not an element of the array, so the value is silently lost. The
  model treats this as a configuration error, because a configuration without a column for
  one of its numeric features does not fit the classifier. This is recorded under Findings.
- **Percentage form.** The code multiplies the classifier's answer by 100 without any test,
  so the answer is a fraction. The model takes it the same way.

## Model

| member | source | states |
|---|---|---|
| Search.IndexOf | script.js:81-83 | `indexOf` gives `None` exactly when the name is absent; otherwise it gives an index holding the name that is its first occurrence |
| Search.IndexOfExactly | script.js:90-92 | `indexOf` names position `j` iff `j` holds the name and is its first occurrence |
| Temporal.MondayFirst | script.js:65 | `(d + 6) % 7` maps every weekday 0..6 into 0..6 |
| Temporal.SundayFirst | script.js:65 | the inverse remap stays in 0..6 |
| Temporal.WeekdayRoundTrip | script.js:65 | the remap and its inverse undo each other in both directions |
| Temporal.MondayFirstBijective | script.js:65 | the remap is injective on 0..6 and every value 0..6 is reached, so it is a bijection |
| Temporal.NamedWeekdays | script.js:65 | Sunday (0) goes to 6, Monday (1) to 0 and Saturday (6) to 5 |
| Temporal.Decompose | script.js:63-66 | month is in 1..12 and is the native month plus one; weekday is in 0..6 and maps back to the native Sunday-first day; the hour is unchanged |
| Scaling.Standardize | script.js:70-72 | scaling succeeds iff the name is in `features` and has usable parameters at its first index; each failure names the feature, and an absent name is `UnknownScalerFeature` |
| Scaling.StandardizeAt | script.js:70-72 | for a name whose first index is `i`, the result is `(v - mean[i]) / scale[i]` |
| Scaling.ScaleUnscale | script.js:70-72 | for a non-zero scale, `(v - mean) / scale` and `x * scale + mean` undo each other in both directions |
| Scaling.UnstandardizeStandardize | script.js:70-72 | applying `x * scale[i] + mean[i]` to the scaled value gives back `v` |
| Scaling.StandardizeUnstandardize | script.js:70-72 | scaling an unscaled value gives back the standardised value |
| Columns.UpperAscii | script.js:45-46 | a lower-case ASCII letter becomes its capital; any other character is unchanged; the result is never lower-case |
| Columns.ToUpper | script.js:45-46 | upper-casing keeps the length and upper-cases each character |
| Columns.ToUpperIdempotent | script.js:45-46 | upper-casing twice is the same as upper-casing once |
| Columns.ToUpperKeepsCapitals | script.js:45-46 | a code with no lower-case letter is left unchanged |
| Columns.FlightColumn | script.js:86 | the flight column is `Flight_` followed by the code exactly as typed |
| Columns.OriginColumn | script.js:87 | the origin column is `PortFrom_` followed by the origin code, upper-cased as it was read at line 45 |
| Columns.DestinationColumn | script.js:88 | the destination column is `PortTo_` followed by the destination code, upper-cased as it was read at line 46 |
| Columns.ColumnCodes | script.js:86-88 | after the prefix, a column name holds the flight code as typed, or the port code upper-cased |
| Columns.ColumnsIdentifyCodes | script.js:86-88 | two flight codes give the same column iff they are equal; two port codes give the same column iff they agree after upper-casing |
| Columns.ColumnsDisjoint | script.js:86-88 | the flight, origin and destination columns differ from each other and from `MES`, `DIA_SEMANA` and `HORA_SALIDA` |
| Assembly.Zeros | script.js:77 | `new Array(n).fill(0)` has length `n` and all zeros |
| Assembly.Place | script.js:81-83 | writing a numeric value succeeds iff its column exists; only the column's first slot changes, to the value; otherwise the result is `UnknownColumn` |
| Assembly.Activate | script.js:90-92 | an unknown column leaves the vector unchanged; a known one sets its first slot to 1 and no other slot changes |
| Assembly.ActivateAll | script.js:90-92 | the first slot of each activated name becomes 1; every other slot keeps its value |
| Assembly.Vector | script.js:77-92 | assembly succeeds iff `MES`, `DIA_SEMANA` and `HORA_SALIDA` all have columns, and otherwise names the missing one; the vector has `columns.length` slots; each first-occurrence slot holds its role's value (1 for an activated column, else its numeric value, else 0); a repeated name's slot holds 0 |
| Assembly.VectorZeroElsewhere | script.js:77-92 | a slot that is not the first slot of a numeric name or an activated column stays exactly 0 |
| Assembly.VectorSeesOnlyKnownColumns | script.js:90-92 | two lists of activated columns that agree on which configured columns they name give the same vector |
| Assembly.UnknownCategoryIgnored | script.js:90-92 | inserting an activated column that the configuration does not know, anywhere in the list, leaves the vector unchanged and raises no error |
| Assembly.KnownCategorySet | script.js:90-92 | a known activated column holds 1 at its first index |
| Assembly.PlaceAsWritten | script.js:81-83 | the write as the script does it: a missing column leaves the vector unchanged; a present one gives `Place`'s result |
| Assembly.VectorAsWritten | script.js:77-92 | the vector as the script builds it has one slot per column; for every configuration each slot is its column's `SlotValue` at a name's first occurrence and 0 elsewhere, so a numeric feature without a column lands in no slot; it equals `Vector`'s result whenever the three numeric columns exist |
| Assembly.MissingMonthColumnDropped | script.js:81 | when the columns lack `MES`, the script as written loses the scaled month without an error, while `Vector` reports `UnknownColumn("MES")` |
| Assembly.PlaceAt | script.js:81-83 | the in-place numeric write reports whether the column exists; the array becomes `Place`'s result, or stays unchanged |
| Assembly.SetIfPresent | script.js:90-92 | the in-place one-hot write turns the array into `Activate` of its old contents |
| Assembly.AssembleInput | script.js:77-92 | the array method succeeds exactly when `Vector` does, with the same error; on success it returns a fresh array holding `Vector`'s sequence |
| Risk.Percentage | script.js:98 | the percentage is above 50 iff the fraction is above 0.5, and above 20 iff the fraction is above 0.2; a fraction of at most 0 gives at most 0 per cent, and a fraction of at least 1 gives at least 100 per cent |
| Risk.Classify | script.js:102-111 | HIGH iff `p > 50`; MEDIUM iff `20 < p <= 50`; LOW iff `p <= 20` |
| Risk.ClassifyMonotone | script.js:102-111 | a higher percentage never gets a lower band |
| Risk.Boundaries | script.js:102-111 | 50 is MEDIUM and 50.0001 is HIGH; 20 is LOW and 20.0001 is MEDIUM |
| Risk.BandOfFraction | script.js:98-111 | in terms of the classifier's fraction, the bands split at 0.5 and 0.2 with the same strictness |
| Pipeline.Complete | script.js:50 | the required-field check passes iff all five typed fields are non-empty (upper-casing does not change this) |
| Pipeline.OneHotColumns | script.js:86-92 | a query asks for three one-hot columns; they are pairwise distinct and none is a numeric feature's name |
| Pipeline.ScaleTime | script.js:69-72 | the three features scale iff each resolves in the scaler; a failure names one of them that does not resolve |
| Pipeline.ScaleTimeInverts | script.js:69-72 | the scaled month, weekday and hour unscale back to the calendar features |
| Pipeline.Encode | script.js:63-92 | encoding succeeds iff the scaling succeeds and the three numeric columns exist, and the result has `columns.length` slots |
| Pipeline.EncodeSlots | script.js:77-92 | in an encoded query, the `MES`, `DIA_SEMANA` and `HORA_SALIDA` slots hold the scaled month, weekday and hour; known one-hot slots hold 1; every other slot holds 0 |
| Pipeline.UnknownFlightIgnored | script.js:86-90 | a flight code that has no column has no effect on the vector |
| Pipeline.UnknownOriginIgnored | script.js:87-91 | an origin code that has no column has no effect on the vector |
| Pipeline.UnknownDestinationIgnored | script.js:88-92 | a destination code that has no column has no effect on the vector |
| Pipeline.PredictionOf | script.js:35-111 | a missing model or configuration gives `ModelNotLoaded`; an incomplete form gives `IncompleteForm`; an encoding failure is passed on; otherwise the percentage is 100 times the classifier's answer on the encoded vector and the band is its classification |
| Pipeline.SampleEncode | script.js:63-92 | the Monday 14:00 sample with lower-case port codes encodes to `[-1, -1.5, 0.4, 1, 1, 1]` |
| Pipeline.SampleRun | script.js:95-111 | a classifier answering 0.73 on the sample gives 73 per cent, HIGH |
| Pipeline.SampleRunUnknownFlight | script.js:90 | the sample with the unseen flight ZZ99 encodes with no error to `[-1, -1.5, 0.4, 0, 1, 1]` |
| Pipeline.Predict | script.js:35-111 | the method with the in-place array assembly returns exactly `PredictionOf` |

## Left out

- Loading the model and the configuration (`CargarModelo`, `tf.loadLayersModel`, `fetch`): these are network and library I/O. The loaded values are parameters.
- The classifier itself (`tf.tensor2d`, `model.predict`, awaiting `data()`): this is a foreign, asynchronous library call. It is an opaque total function `seq<real> -> real`. A classifier that throws is not modelled.
- Reading the form and rendering the result (`innerText`, `innerHTML`, colours, the loader, `toFixed(2)`, the emoji texts, the message of the `catch` block): display only. The run returns a `Result` with the percentage and band, or the error.
- Building the `Date` from the date and time strings in the local time zone: this is JavaScript date parsing. The model takes the values of `getMonth()`, `getDay()` and `getHours()`, so an unparseable date, which would give NaN, is not modelled.
- IEEE-754 arithmetic, NaN and infinities: the model uses exact `real` arithmetic.
- Standardize: where the script would compute with `undefined` or divide by zero and carry on with NaN or an infinity, the model reports `UnknownScalerFeature`, `MissingScalerParameter` or `ZeroScale`.
- ToUpper, UpperAscii: only the ASCII letters a-z are upper-cased. JavaScript's `toUpperCase` also maps other Unicode letters, and some of them change the length (for example 'ß' becomes "SS").
- The count of ones in the vector: the bound of at most one 1 per category is not stated as a count. EncodeSlots says which slots can hold 1.

## Findings

| source | as written | input that shows it | evidently intended | confidence | as-written member | corrected member |
|---|---|---|---|---|---|---|
| script.js:81-83 | `inputData[allColumns.indexOf('MES')] = scaledMes`; when the column is missing, `indexOf` is -1 and the write sets a non-element property, so the value is silently lost | `columns = ["DIA_SEMANA", "HORA_SALIDA"]`: the vector is `[-1.5, 0.4]` and the month is nowhere in it | a configuration that lacks a numeric feature's column does not fit the classifier; the scaled value must not silently disappear, so assembly reports `UnknownColumn` | medium, not executed | Assembly.PlaceAsWritten, Assembly.VectorAsWritten, Assembly.MissingMonthColumnDropped | Assembly.Place, Assembly.Vector |
