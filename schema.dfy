/** The configuration document the classifier was trained against (`model_config.json`):
    the ordered input columns and the standardisation table, plus the names of the three
    numeric features and the ways a configuration can fail to fit a query. */
module Schema {

  /** `modelConfig.scaler`: parallel tables of feature names, means and scales. */
  datatype Scaler = Scaler(features: seq<string>, mean: seq<real>, scale: seq<real>)

  /** `modelConfig`: the classifier's ordered input columns and its scaler. */
  datatype ModelConfig = ModelConfig(columns: seq<string>, scaler: Scaler)

  /** A configuration that does not fit the query; every case names the feature or column. */
  datatype ConfigError =
    | UnknownScalerFeature(name: string)
    | MissingScalerParameter(name: string)
    | ZeroScale(name: string)
    | UnknownColumn(name: string)

  /** The numeric features, as named both in `scaler.features` and in `columns`. */
  const MonthFeature: string := "MES"
  const WeekdayFeature: string := "DIA_SEMANA"
  const HourFeature: string := "HORA_SALIDA"

  /** The standardised values of the three numeric features of one query. */
  datatype Scaled = Scaled(month: real, weekday: real, hour: real)
}
