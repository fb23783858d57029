/** The prediction run behind the form's button: the guards, the encoding of the
    five form fields into the classifier's input, the call to the classifier, and the
    band of its answer. The trained classifier is a parameter; `None` stands for a
    model that is not loaded: still loading, or its loading failed. */
module Pipeline {
  import opened Wrappers
  import opened Search
  import opened Schema
  import opened Temporal
  import opened Scaling
  import opened Columns
  import opened Assembly
  import opened Risk

  /** The five form fields as typed. */
  datatype Form = Form(flight: string, origin: string, destination: string, date: string, time: string)

  /** What is shown for a successful run: the percentage and its band. */
  datatype Prediction = Prediction(percent: real, band: Band)

  datatype PredictError =
    | ModelNotLoaded
    | IncompleteForm
    | Configuration(cause: ConfigError)

  /** The trained classifier: input vector to delay probability. */
  type Predictor = seq<real> -> real

  /** The required-field check, made after the port codes are upper-cased; upper-casing
      keeps the length, so it is the same as asking that every field typed be non-empty. */
  function Complete(form: Form): (b: bool)
    ensures b <==> form.flight != [] && form.origin != [] && form.destination != [] &&
                   form.date != [] && form.time != []
  {
    form.flight != [] && ToUpper(form.origin) != [] && ToUpper(form.destination) != [] &&
    form.date != [] && form.time != []
  }

  /** The three one-hot columns a query asks for, in the order they are written. */
  function OneHotColumns(form: Form): (hot: seq<string>)
    ensures |hot| == 3
    ensures hot[0] != hot[1] && hot[0] != hot[2] && hot[1] != hot[2]
    ensures forall col :: col in hot ==> col != MonthFeature && col != WeekdayFeature && col != HourFeature
  {
    ColumnsDisjoint(form.flight, form.origin, form.destination);
    [FlightColumn(form.flight), OriginColumn(form.origin), DestinationColumn(form.destination)]
  }

  /** The three numeric features standardised, month then weekday then hour. */
  function ScaleTime(sc: Scaler, t: TimeFeatures): (r: Result<Scaled, ConfigError>)
    ensures r.Success? <==> Resolves(sc, MonthFeature) && Resolves(sc, WeekdayFeature) && Resolves(sc, HourFeature)
    ensures r.Failure? ==> r.error.name in [MonthFeature, WeekdayFeature, HourFeature] && !Resolves(sc, r.error.name)
  {
    var m :- Standardize(sc, MonthFeature, t.month as real);
    var d :- Standardize(sc, WeekdayFeature, t.weekday as real);
    var h :- Standardize(sc, HourFeature, t.hour as real);
    Success(Scaled(m, d, h))
  }

  /** The standardised features decode back to the calendar features they came from. */
  lemma ScaleTimeInverts(sc: Scaler, t: TimeFeatures)
    requires ScaleTime(sc, t).Success?
    ensures var x := ScaleTime(sc, t).value;
      && Unstandardize(sc, MonthFeature, x.month) == Success(t.month as real)
      && Unstandardize(sc, WeekdayFeature, x.weekday) == Success(t.weekday as real)
      && Unstandardize(sc, HourFeature, x.hour) == Success(t.hour as real)
  {
    UnstandardizeStandardize(sc, MonthFeature, t.month as real);
    UnstandardizeStandardize(sc, WeekdayFeature, t.weekday as real);
    UnstandardizeStandardize(sc, HourFeature, t.hour as real);
  }

  /** The classifier's input for one query. */
  function Encode(config: ModelConfig, form: Form, t: NativeInstant): (r: Result<seq<real>, ConfigError>)
    requires t.Valid()
    ensures r.Success? <==> ScaleTime(config.scaler, Decompose(t)).Success? && NumericColumnsPresent(config.columns)
    ensures r.Success? ==> |r.value| == |config.columns|
  {
    var x :- ScaleTime(config.scaler, Decompose(t));
    Vector(config.columns, x, OneHotColumns(form))
  }

  /** In an encoded query, each numeric feature's column holds its standardised value,
      each known one-hot column holds 1, and every other slot holds 0. */
  lemma EncodeSlots(config: ModelConfig, form: Form, t: NativeInstant, j: nat)
    requires t.Valid() && j < |config.columns| && NumericColumnsPresent(config.columns)
    requires Resolves(config.scaler, MonthFeature) && Resolves(config.scaler, WeekdayFeature) && Resolves(config.scaler, HourFeature)
    ensures var v, x, name := Encode(config, form, t).value, ScaleTime(config.scaler, Decompose(t)).value, config.columns[j];
      && (IndexOf(config.columns, MonthFeature) == Some(j) ==> v[j] == x.month)
      && (IndexOf(config.columns, WeekdayFeature) == Some(j) ==> v[j] == x.weekday)
      && (IndexOf(config.columns, HourFeature) == Some(j) ==> v[j] == x.hour)
      && (name in OneHotColumns(form) && FirstOccurrence(config.columns, j) ==> v[j] == 1.0)
      && (var written := name in OneHotColumns(form) || name in [MonthFeature, WeekdayFeature, HourFeature];
          !(FirstOccurrence(config.columns, j) && written) ==> v[j] == 0.0)
  {
    ColumnsDisjoint(form.flight, form.origin, form.destination);
    IndexOfExactly(config.columns, MonthFeature, j);
    IndexOfExactly(config.columns, WeekdayFeature, j);
    IndexOfExactly(config.columns, HourFeature, j);
  }

  /** A flight code the configuration has no column for has no influence: any two such
      codes give the same vector. The same holds for the ports. */
  lemma UnknownFlightIgnored(config: ModelConfig, form: Form, other: string, t: NativeInstant)
    requires t.Valid()
    requires FlightColumn(form.flight) !in config.columns && FlightColumn(other) !in config.columns
    ensures Encode(config, form, t) == Encode(config, form.(flight := other), t)
  {
    var s := ScaleTime(config.scaler, Decompose(t));
    if s.Success? {
      var hot1, hot2 := OneHotColumns(form), OneHotColumns(form.(flight := other));
      forall j | 0 <= j < |config.columns|
        ensures config.columns[j] in hot1 <==> config.columns[j] in hot2
      {
      }
      VectorSeesOnlyKnownColumns(config.columns, s.value, hot1, hot2);
    }
  }

  lemma UnknownOriginIgnored(config: ModelConfig, form: Form, other: string, t: NativeInstant)
    requires t.Valid()
    requires OriginColumn(form.origin) !in config.columns && OriginColumn(other) !in config.columns
    ensures Encode(config, form, t) == Encode(config, form.(origin := other), t)
  {
    var s := ScaleTime(config.scaler, Decompose(t));
    if s.Success? {
      var hot1, hot2 := OneHotColumns(form), OneHotColumns(form.(origin := other));
      forall j | 0 <= j < |config.columns|
        ensures config.columns[j] in hot1 <==> config.columns[j] in hot2
      {
      }
      VectorSeesOnlyKnownColumns(config.columns, s.value, hot1, hot2);
    }
  }

  lemma UnknownDestinationIgnored(config: ModelConfig, form: Form, other: string, t: NativeInstant)
    requires t.Valid()
    requires DestinationColumn(form.destination) !in config.columns && DestinationColumn(other) !in config.columns
    ensures Encode(config, form, t) == Encode(config, form.(destination := other), t)
  {
    var s := ScaleTime(config.scaler, Decompose(t));
    if s.Success? {
      var hot1, hot2 := OneHotColumns(form), OneHotColumns(form.(destination := other));
      forall j | 0 <= j < |config.columns|
        ensures config.columns[j] in hot1 <==> config.columns[j] in hot2
      {
      }
      VectorSeesOnlyKnownColumns(config.columns, s.value, hot1, hot2);
    }
  }

  /** The whole run: guards first, then encoding, the classifier, and the band. */
  function PredictionOf(model: Option<Predictor>, config: Option<ModelConfig>, form: Form, t: NativeInstant): (r: Result<Prediction, PredictError>)
    requires t.Valid()
    ensures (model.None? || config.None?) ==> r == Failure(ModelNotLoaded)
    ensures model.Some? && config.Some? && !Complete(form) ==> r == Failure(IncompleteForm)
    ensures model.Some? && config.Some? && Complete(form) ==>
      match Encode(config.value, form, t)
      case Failure(e) => r == Failure(Configuration(e))
      case Success(v) => r.Success? && r.value.percent == model.value(v) * 100.0 && r.value.band == Classify(r.value.percent)
  {
    if model.None? || config.None? then Failure(ModelNotLoaded)
    else if !Complete(form) then Failure(IncompleteForm)
    else
      match Encode(config.value, form, t)
      case Failure(e) => Failure(Configuration(e))
      case Success(v) =>
        var p := Percentage(model.value(v));
        Success(Prediction(p, Classify(p)))
  }

  /** A configuration and the query of a Monday 14:00 flight AB12 from "jfk" to "lax" (port
      codes typed in lower case) whose columns all exist. */
  function SampleConfig(): ModelConfig {
    ModelConfig(
      [MonthFeature, WeekdayFeature, HourFeature, "Flight_AB12", "PortFrom_JFK", "PortTo_LAX"],
      Scaler([MonthFeature, WeekdayFeature, HourFeature], [6.0, 3.0, 12.0], [3.0, 2.0, 5.0]))
  }

  /** Monday 4 March 2024, 14:00: `getMonth()` 2, `getDay()` 1, `getHours()` 14. */
  function SampleInstant(): NativeInstant {
    NativeInstant(2, 1, 14)
  }

  /** The sample's columns are pairwise distinct, so each is its own first occurrence. */
  lemma SampleColumnsDistinct()
    ensures forall j :: 0 <= j < |SampleConfig().columns| ==> FirstOccurrence(SampleConfig().columns, j)
  {
    var cols := SampleConfig().columns;
    assert cols[1][0] != cols[0][0];
    assert cols[2][0] != cols[0][0] && cols[2][0] != cols[1][0];
    assert cols[3][0] != cols[0][0] && cols[3][0] != cols[1][0] && cols[3][0] != cols[2][0];
    assert cols[4][0] != cols[0][0] && cols[4][0] != cols[1][0] && cols[4][0] != cols[2][0] && |cols[4]| != |cols[3]|;
    assert cols[5][0] != cols[0][0] && cols[5][0] != cols[1][0] && cols[5][0] != cols[2][0] && |cols[5]| != |cols[3]|;
    assert cols[5][4] != cols[4][4];
  }

  /** Month 3, weekday 0 and hour 14 standardise to -1, -1.5 and 0.4. */
  lemma SampleScaled()
    ensures ScaleTime(SampleConfig().scaler, Decompose(SampleInstant())) == Success(Scaled(-1.0, -1.5, 0.4))
  {
    var sc := SampleConfig().scaler;
    assert Decompose(SampleInstant()) == TimeFeatures(3, 0, 14);
    assert sc.features[1][0] != sc.features[0][0];
    assert sc.features[2][0] != sc.features[0][0] && sc.features[2][0] != sc.features[1][0];
    StandardizeAt(sc, MonthFeature, 0, 3.0);
    StandardizeAt(sc, WeekdayFeature, 1, 0.0);
    StandardizeAt(sc, HourFeature, 2, 14.0);
  }

  /** What each sample column's slot should hold, by `SlotValue`. */
  lemma SampleSlotValues(hot: seq<string>, flight: real)
    requires |hot| == 3 && hot[1] == "PortFrom_JFK" && hot[2] == "PortTo_LAX"
    requires hot[0] == "Flight_AB12" || hot[0] == "Flight_ZZ99"
    requires flight == (if hot[0] == "Flight_AB12" then 1.0 else 0.0)
    ensures var cols, x := SampleConfig().columns, Scaled(-1.0, -1.5, 0.4);
      && SlotValue(cols[0], x, hot) == -1.0 && SlotValue(cols[1], x, hot) == -1.5
      && SlotValue(cols[2], x, hot) == 0.4 && SlotValue(cols[3], x, hot) == flight
      && SlotValue(cols[4], x, hot) == 1.0 && SlotValue(cols[5], x, hot) == 1.0
  {
    var cols := SampleConfig().columns;
    assert cols[0] !in hot by { assert |cols[0]| != |hot[0]| && |cols[0]| != |hot[1]| && |cols[0]| != |hot[2]|; }
    assert cols[1] !in hot by { assert cols[1][0] != hot[0][0] && |cols[1]| != |hot[1]| && cols[1][0] != hot[2][0]; }
    assert cols[2] !in hot by { assert cols[2][0] != hot[0][0] && |cols[2]| != |hot[1]| && |cols[2]| != |hot[2]|; }
    assert cols[4] == hot[1] && cols[5] == hot[2];
    if hot[0] != "Flight_AB12" {
      assert cols[3] != hot[0] by { assert cols[3][7] != hot[0][7]; }
      assert |cols[3]| != |hot[1]| && |cols[3]| != |hot[2]|;
    }
  }

  /** The sample's whole vector, slot by slot from `Vector`'s description. */
  lemma SampleVector(cols: seq<string>, hot: seq<string>, flight: real)
    requires cols == SampleConfig().columns
    requires |hot| == 3 && hot[1] == "PortFrom_JFK" && hot[2] == "PortTo_LAX"
    requires hot[0] == "Flight_AB12" || hot[0] == "Flight_ZZ99"
    requires flight == (if hot[0] == "Flight_AB12" then 1.0 else 0.0)
    ensures Vector(cols, Scaled(-1.0, -1.5, 0.4), hot) == Success([-1.0, -1.5, 0.4, flight, 1.0, 1.0])
  {
    var x := Scaled(-1.0, -1.5, 0.4);
    assert NumericColumnsPresent(cols) by {
      assert cols[0] == MonthFeature && cols[1] == WeekdayFeature && cols[2] == HourFeature;
    }
    SampleColumnsDistinct();
    SampleSlotValues(hot, flight);
    SixSlots(cols, x, hot, [-1.0, -1.5, 0.4, flight, 1.0, 1.0]);
  }

  /** A vector of six distinct columns is the six slot values. */
  lemma SixSlots(cols: seq<string>, x: Scaled, hot: seq<string>, expected: seq<real>)
    requires |cols| == 6 && |expected| == 6 && NumericColumnsPresent(cols)
    requires forall j :: 0 <= j < 6 ==> FirstOccurrence(cols, j) && SlotValue(cols[j], x, hot) == expected[j]
    ensures Vector(cols, x, hot) == Success(expected)
  {
    var v := Vector(cols, x, hot).value;
    assert forall j :: 0 <= j < 6 ==> v[j] == expected[j];
    assert v == expected;
  }

  lemma SampleOneHotColumns(flight: string)
    ensures OneHotColumns(Form(flight, "jfk", "lax", "2024-03-04", "14:00"))
      == ["Flight_" + flight, "PortFrom_JFK", "PortTo_LAX"]
  {
    assert ToUpper("jfk") == "JFK" && ToUpper("lax") == "LAX";
    assert OriginPrefix + "JFK" == "PortFrom_JFK";
    assert DestinationPrefix + "LAX" == "PortTo_LAX";
  }

  /** The sample query encodes to month -1, weekday -1.5, hour 0.4 and three ones: the
      port codes were typed in lower case and still find their columns. */
  lemma SampleEncode()
    ensures Encode(SampleConfig(), Form("AB12", "jfk", "lax", "2024-03-04", "14:00"), SampleInstant())
      == Success([-1.0, -1.5, 0.4, 1.0, 1.0, 1.0])
  {
    var form := Form("AB12", "jfk", "lax", "2024-03-04", "14:00");
    SampleOneHotColumns("AB12");
    assert FlightPrefix + "AB12" == "Flight_AB12";
    SampleScaled();
    SampleVector(SampleConfig().columns, OneHotColumns(form), 1.0);
  }

  /** A classifier answering 0.73 on the sample query gives 73 per cent, HIGH. */
  lemma SampleRun()
    ensures PredictionOf(Some(_ => 0.73), Some(SampleConfig()), Form("AB12", "jfk", "lax", "2024-03-04", "14:00"), SampleInstant())
      == Success(Prediction(73.0, High))
  {
    SampleEncode();
    var form := Form("AB12", "jfk", "lax", "2024-03-04", "14:00");
    assert Complete(form);
    var r := PredictionOf(Some(_ => 0.73), Some(SampleConfig()), form, SampleInstant());
    assert r.Success? && r.value.percent == 73.0;
    assert r.value.band == High;
  }

  /** The same query for flight ZZ99, which has no column: no error, and the flight's
      slot stays 0 while every other slot is as before. */
  lemma SampleRunUnknownFlight()
    ensures Encode(SampleConfig(), Form("ZZ99", "jfk", "lax", "2024-03-04", "14:00"), SampleInstant())
      == Success([-1.0, -1.5, 0.4, 0.0, 1.0, 1.0])
  {
    var form := Form("ZZ99", "jfk", "lax", "2024-03-04", "14:00");
    SampleOneHotColumns("ZZ99");
    assert FlightPrefix + "ZZ99" == "Flight_ZZ99";
    SampleScaled();
    SampleVector(SampleConfig().columns, OneHotColumns(form), 0.0);
  }

  /** The run with the input vector assembled in place in an array. */
  method Predict(model: Option<Predictor>, config: Option<ModelConfig>, form: Form, t: NativeInstant)
    returns (r: Result<Prediction, PredictError>)
    requires t.Valid()
    ensures r == PredictionOf(model, config, form, t)
  {
    if model.None? || config.None? {
      return Failure(ModelNotLoaded);
    }
    if !Complete(form) {
      return Failure(IncompleteForm);
    }
    var features := Decompose(t);
    var scaled := ScaleTime(config.value.scaler, features);
    if scaled.Failure? {
      return Failure(Configuration(scaled.error));
    }
    var input := AssembleInput(config.value.columns, scaled.value,
      FlightColumn(form.flight), OriginColumn(form.origin), DestinationColumn(form.destination));
    if input.Failure? {
      return Failure(Configuration(input.error));
    }
    var p := Percentage(model.value(input.value[..]));
    r := Success(Prediction(p, Classify(p)));
  }
}
