/** Standardisation of the numeric features with the configuration's scaler table. */
module Scaling {
  import opened Wrappers
  import opened Search
  import opened Schema

  /** The scaler has usable parameters for `name`: the name occurs in `features`, both
      parameter tables reach its first index, and the scale there is not zero. */
  predicate Resolves(sc: Scaler, name: string) {
    match IndexOf(sc.features, name)
    case None => false
    case Some(i) => i < |sc.mean| && i < |sc.scale| && sc.scale[i] != 0.0
  }

  /** `(v - scaler.mean[i]) / scaler.scale[i]` with `i = scaler.features.indexOf(name)`.
      Where the script would compute with an undefined parameter, or divide by zero,
      the model reports the configuration error instead. */
  function Standardize(sc: Scaler, name: string, v: real): (r: Result<real, ConfigError>)
    ensures r.Success? <==> Resolves(sc, name)
    ensures r.Failure? ==> r.error.name == name
    ensures r.Failure? && name !in sc.features ==> r.error == UnknownScalerFeature(name)
  {
    match IndexOf(sc.features, name)
    case None => Failure(UnknownScalerFeature(name))
    case Some(i) =>
      if i >= |sc.mean| || i >= |sc.scale| then Failure(MissingScalerParameter(name))
      else if sc.scale[i] == 0.0 then Failure(ZeroScale(name))
      else Success(Scale(v, sc.mean[i], sc.scale[i]))
  }

  /** Standardisation with one mean and one scale. */
  function Scale(v: real, m: real, s: real): real
    requires s != 0.0
  {
    (v - m) / s
  }

  /** The inverse of `Scale` for the same mean and scale. */
  function Unscale(x: real, m: real, s: real): real {
    x * s + m
  }

  /** For a non-zero scale, `Scale` and `Unscale` undo each other. */
  lemma ScaleUnscale(v: real, x: real, m: real, s: real)
    requires s != 0.0
    ensures Unscale(Scale(v, m, s), m, s) == v
    ensures Scale(Unscale(x, m, s), m, s) == x
  {
    assert (v - m) / s * s == v - m;
    assert (x * s + m - m) / s == x;
  }

  /** The inverse transform, `x * scale[i] + mean[i]`, with the same lookup. */
  function Unstandardize(sc: Scaler, name: string, x: real): (r: Result<real, ConfigError>)
  {
    match IndexOf(sc.features, name)
    case None => Failure(UnknownScalerFeature(name))
    case Some(i) =>
      if i >= |sc.mean| || i >= |sc.scale| then Failure(MissingScalerParameter(name))
      else if sc.scale[i] == 0.0 then Failure(ZeroScale(name))
      else Success(Unscale(x, sc.mean[i], sc.scale[i]))
  }

  /** The parameters used are those at the FIRST index of the name in `features`. */
  lemma StandardizeAt(sc: Scaler, name: string, i: nat, v: real)
    requires i < |sc.features| && sc.features[i] == name && FirstOccurrence(sc.features, i)
    requires i < |sc.mean| && i < |sc.scale| && sc.scale[i] != 0.0
    ensures Standardize(sc, name, v) == Success((v - sc.mean[i]) / sc.scale[i])
  {
    IndexOfExactly(sc.features, name, i);
  }

  /** Scaling then unscaling gives back the raw value. */
  lemma UnstandardizeStandardize(sc: Scaler, name: string, v: real)
    requires Standardize(sc, name, v).Success?
    ensures Unstandardize(sc, name, Standardize(sc, name, v).value) == Success(v)
  {
    var i := IndexOf(sc.features, name).value;
    var s, m := sc.scale[i], sc.mean[i];
    var x := Scale(v, m, s);
    assert Standardize(sc, name, v) == Success(x);
    assert Unstandardize(sc, name, x) == Success(Unscale(x, m, s));
    ScaleUnscale(v, x, m, s);
  }

  /** Unscaling then scaling gives back the standardised value. */
  lemma StandardizeUnstandardize(sc: Scaler, name: string, x: real)
    requires Unstandardize(sc, name, x).Success?
    ensures Standardize(sc, name, Unstandardize(sc, name, x).value) == Success(x)
  {
    var i := IndexOf(sc.features, name).value;
    assert i < |sc.mean| && i < |sc.scale| && sc.scale[i] != 0.0;
    var s, m := sc.scale[i], sc.mean[i];
    var v := Unscale(x, m, s);
    assert Unstandardize(sc, name, x) == Success(v);
    assert Standardize(sc, name, v) == Success(Scale(v, m, s));
    ScaleUnscale(v, x, m, s);
  }
}
