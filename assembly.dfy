/** Assembly of the classifier's input vector: a zero vector as long as the column
    list, the three standardised values at the columns named after their features, and
    a 1 at each one-hot column the configuration knows. The functions describe the
    vector as a sequence; `AssembleInput` builds it in place in an array. */
module Assembly {
  import opened Wrappers
  import opened Search
  import opened Schema

  /** `new Array(n).fill(0)`. */
  function Zeros(n: nat): (r: seq<real>)
    ensures |r| == n && forall j :: 0 <= j < n ==> r[j] == 0.0
  {
    seq(n, _ => 0.0)
  }

  /** `v[columns.indexOf(name)] = x` for a numeric feature, whose column must exist. */
  function Place(v: seq<real>, columns: seq<string>, name: string, x: real): (r: Result<seq<real>, ConfigError>)
    requires |v| == |columns|
    ensures r.Success? <==> name in columns
    ensures r.Failure? ==> r.error == UnknownColumn(name)
    ensures r.Success? ==> (|r.value| == |v| &&
      forall j :: 0 <= j < |v| ==>
        r.value[j] == if columns[j] == name && FirstOccurrence(columns, j) then x else v[j])
  {
    match IndexOf(columns, name)
    case None => Failure(UnknownColumn(name))
    case Some(i) =>
      IndexOfAll(columns, name);
      Success(v[i := x])
  }

  /** `if (columns.includes(col)) v[columns.indexOf(col)] = 1`: the first slot named
      `col` becomes 1 and no other slot changes; an unknown column changes nothing. */
  function Activate(v: seq<real>, columns: seq<string>, col: string): (r: seq<real>)
    requires |v| == |columns|
    ensures |r| == |v|
    ensures col !in columns ==> r == v
    ensures forall j :: 0 <= j < |v| ==>
      r[j] == if columns[j] == col && FirstOccurrence(columns, j) then 1.0 else v[j]
  {
    if col in columns then
      IndexOfAll(columns, col);
      v[IndexOf(columns, col).value := 1.0]
    else v
  }

  /** The one-hot columns activated one after the other. */
  function ActivateAll(v: seq<real>, columns: seq<string>, hot: seq<string>): (r: seq<real>)
    requires |v| == |columns|
    ensures |r| == |v|
    ensures forall j :: 0 <= j < |v| ==>
      r[j] == if columns[j] in hot && FirstOccurrence(columns, j) then 1.0 else v[j]
    decreases |hot|
  {
    if hot == [] then v else ActivateAll(Activate(v, columns, hot[0]), columns, hot[1..])
  }

  /** Every all-positions form of `IndexOfExactly`, for the callers above. */
  lemma IndexOfAll(columns: seq<string>, name: string)
    ensures forall j :: 0 <= j < |columns| ==>
      (IndexOf(columns, name) == Some(j) <==> columns[j] == name && FirstOccurrence(columns, j))
  {
    forall j | 0 <= j < |columns| {
      IndexOfExactly(columns, name, j);
    }
  }

  /** What the column called `name` holds when its slot is the first of that name: 1 for
      an activated one-hot column, else the value of the numeric feature of that name,
      else 0. This is the reference description of the finished vector. */
  function SlotValue(name: string, x: Scaled, hot: seq<string>): real {
    if name in hot then 1.0
    else if name == HourFeature then x.hour
    else if name == WeekdayFeature then x.weekday
    else if name == MonthFeature then x.month
    else 0.0
  }

  predicate NumericColumnsPresent(columns: seq<string>) {
    MonthFeature in columns && WeekdayFeature in columns && HourFeature in columns
  }

  /** The classifier's input, in the order of the writes at script.js:77-92. A numeric
      feature without a column is a configuration error. */
  function Vector(columns: seq<string>, x: Scaled, hot: seq<string>): (r: Result<seq<real>, ConfigError>)
    ensures r.Success? <==> NumericColumnsPresent(columns)
    ensures r.Failure? ==> (r.error.UnknownColumn? &&
      r.error.name in [MonthFeature, WeekdayFeature, HourFeature] && r.error.name !in columns)
    ensures r.Success? ==> (|r.value| == |columns| &&
      forall j :: 0 <= j < |columns| ==>
        r.value[j] == if FirstOccurrence(columns, j) then SlotValue(columns[j], x, hot) else 0.0)
  {
    var v0 := Zeros(|columns|);
    var v1 :- Place(v0, columns, MonthFeature, x.month);
    var v2 :- Place(v1, columns, WeekdayFeature, x.weekday);
    var v3 :- Place(v2, columns, HourFeature, x.hour);
    Success(ActivateAll(v3, columns, hot))
  }

  /** Only the first slot of a written name can be non-zero: five kinds of slot
      stay exactly 0 (a repeated name, or a name neither numeric nor activated). */
  lemma VectorZeroElsewhere(columns: seq<string>, x: Scaled, hot: seq<string>, j: nat)
    requires NumericColumnsPresent(columns) && j < |columns|
    requires !FirstOccurrence(columns, j) ||
      (columns[j] !in hot && columns[j] !in [MonthFeature, WeekdayFeature, HourFeature])
    ensures Vector(columns, x, hot).value[j] == 0.0
  {
  }

  /** The vector depends on the activated columns only through which of the
      configuration's columns they name. */
  lemma VectorSeesOnlyKnownColumns(columns: seq<string>, x: Scaled, hot1: seq<string>, hot2: seq<string>)
    requires forall j :: 0 <= j < |columns| ==> (columns[j] in hot1 <==> columns[j] in hot2)
    ensures Vector(columns, x, hot1) == Vector(columns, x, hot2)
  {
    var r1, r2 := Vector(columns, x, hot1), Vector(columns, x, hot2);
    if r1.Success? {
      forall j | 0 <= j < |columns| ensures r1.value[j] == r2.value[j] {
        if FirstOccurrence(columns, j) {
          assert SlotValue(columns[j], x, hot1) == SlotValue(columns[j], x, hot2);
        }
      }
      assert r1.value == r2.value;
    }
  }

  /** An activated column the configuration does not know changes nothing: the vector is
      the one built without it, wherever it stands in the list. */
  lemma UnknownCategoryIgnored(columns: seq<string>, x: Scaled, hot: seq<string>, k: nat, col: string)
    requires k <= |hot| && col !in columns
    ensures Vector(columns, x, hot[..k] + [col] + hot[k..]) == Vector(columns, x, hot)
  {
    var hot' := hot[..k] + [col] + hot[k..];
    assert hot == hot[..k] + hot[k..];
    forall j | 0 <= j < |columns| ensures columns[j] in hot' <==> columns[j] in hot {
      assert columns[j] != col;
    }
    VectorSeesOnlyKnownColumns(columns, x, hot', hot);
  }

  /** A known one-hot column: its first slot is 1. */
  lemma KnownCategorySet(columns: seq<string>, x: Scaled, hot: seq<string>, col: string)
    requires NumericColumnsPresent(columns) && col in hot && col in columns
    ensures Vector(columns, x, hot).value[IndexOf(columns, col).value] == 1.0
  {
  }

  // ---------------------------------------------------------------------------
  // The numeric writes as the script has them: `indexOf` yields -1 for a missing
  // column, and `inputData[-1] = x` adds a property that is not an element, so the
  // value is silently dropped.

  function PlaceAsWritten(v: seq<real>, columns: seq<string>, name: string, x: real): (r: seq<real>)
    requires |v| == |columns|
    ensures name !in columns ==> r == v
    ensures name in columns ==> Success(r) == Place(v, columns, name, x)
  {
    match IndexOf(columns, name)
    case None => v
    case Some(i) => v[i := x]
  }

  /** The vector as the script builds it. It always has one slot per column, every slot
      is given by `SlotValue` whatever the configuration, so a numeric feature without a
      column lands in no slot, and it is `Vector`'s result whenever the three numeric
      columns exist; the two differ only on configurations that lack one. */
  function VectorAsWritten(columns: seq<string>, x: Scaled, hot: seq<string>): (r: seq<real>)
    ensures |r| == |columns|
    ensures forall j :: 0 <= j < |columns| ==>
      r[j] == if FirstOccurrence(columns, j) then SlotValue(columns[j], x, hot) else 0.0
    ensures NumericColumnsPresent(columns) ==> Vector(columns, x, hot) == Success(r)
  {
    IndexOfAll(columns, MonthFeature);
    IndexOfAll(columns, WeekdayFeature);
    IndexOfAll(columns, HourFeature);
    var v1 := PlaceAsWritten(Zeros(|columns|), columns, MonthFeature, x.month);
    var v2 := PlaceAsWritten(v1, columns, WeekdayFeature, x.weekday);
    var v3 := PlaceAsWritten(v2, columns, HourFeature, x.hour);
    ActivateAll(v3, columns, hot)
  }

  /** A configuration whose columns lack "MES": as written, the standardised month
      appears nowhere in the vector and nothing reports it; `Vector` refuses instead. */
  lemma MissingMonthColumnDropped()
    ensures var columns := [WeekdayFeature, HourFeature];
      var x := Scaled(-1.0, -1.5, 0.4);
      VectorAsWritten(columns, x, []) == [-1.5, 0.4] &&
      x.month !in VectorAsWritten(columns, x, []) &&
      Vector(columns, x, []) == Failure(UnknownColumn(MonthFeature))
  {
    var columns := [WeekdayFeature, HourFeature];
    assert IndexOf(columns, MonthFeature) == None;
    assert IndexOf(columns, WeekdayFeature) == Some(0);
    assert IndexOf(columns, HourFeature) == Some(1) by {
      assert columns[1..] == [HourFeature];
    }
  }

  // ---------------------------------------------------------------------------
  // The in-place assembly over an array.

  /** `Vector` as the chain of its steps, for the method below. */
  lemma VectorSteps(columns: seq<string>, x: Scaled, hot: seq<string>)
    ensures var v1 := Place(Zeros(|columns|), columns, MonthFeature, x.month);
      && (v1.Failure? ==> Vector(columns, x, hot) == Failure(v1.error))
      && (v1.Success? ==>
            var v2 := Place(v1.value, columns, WeekdayFeature, x.weekday);
            && (v2.Failure? ==> Vector(columns, x, hot) == Failure(v2.error))
            && (v2.Success? ==>
                  var v3 := Place(v2.value, columns, HourFeature, x.hour);
                  && (v3.Failure? ==> Vector(columns, x, hot) == Failure(v3.error))
                  && (v3.Success? ==> Vector(columns, x, hot) == Success(ActivateAll(v3.value, columns, hot)))))
  {
  }

  lemma ActivateThree(v: seq<real>, columns: seq<string>, a: string, b: string, c: string)
    requires |v| == |columns|
    ensures ActivateAll(v, columns, [a, b, c]) == Activate(Activate(Activate(v, columns, a), columns, b), columns, c)
  {
    var hot := [a, b, c];
    assert hot[1..] == [b, c] && hot[1..][1..] == [c] && hot[1..][1..][1..] == [];
    var v1 := Activate(v, columns, a);
    var v2 := Activate(v1, columns, b);
    assert ActivateAll(v2, columns, [c]) == ActivateAll(Activate(v2, columns, c), columns, []);
  }

  /** `inputData[columns.indexOf(name)] = x`. Reports whether the column exists; leaves
      the array alone when it does not. */
  method PlaceAt(a: array<real>, columns: seq<string>, name: string, x: real) returns (found: bool)
    requires a.Length == |columns|
    modifies a
    ensures found <==> name in columns
    ensures found ==> a[..] == Place(old(a[..]), columns, name, x).value
    ensures !found ==> a[..] == old(a[..])
  {
    var i := IndexOf(columns, name);
    found := i.Some?;
    if found {
      a[i.value] := x;
      assert a[..] == old(a[..])[i.value := x];
    }
  }

  /** `if (columns.includes(col)) inputData[columns.indexOf(col)] = 1`. */
  method SetIfPresent(a: array<real>, columns: seq<string>, col: string)
    requires a.Length == |columns|
    modifies a
    ensures a[..] == Activate(old(a[..]), columns, col)
  {
    if col in columns {
      var i := IndexOf(columns, col).value;
      a[i] := 1.0;
      assert a[..] == old(a[..])[i := 1.0];
    }
  }

  /** Builds the input vector in a fresh array, exactly as `Vector` describes it. */
  method AssembleInput(columns: seq<string>, x: Scaled, flightCol: string, originCol: string, destinationCol: string)
    returns (r: Result<array<real>, ConfigError>)
    ensures var spec := Vector(columns, x, [flightCol, originCol, destinationCol]);
      && (r.Success? <==> spec.Success?)
      && (r.Failure? ==> r.error == spec.error)
      && (r.Success? ==> fresh(r.value) && r.value[..] == spec.value)
  {
    ghost var hot := [flightCol, originCol, destinationCol];
    var a := new real[|columns|](_ => 0.0);
    assert a[..] == Zeros(|columns|);
    var found := PlaceAt(a, columns, MonthFeature, x.month);
    if !found {
      VectorSteps(columns, x, hot);
      return Failure(UnknownColumn(MonthFeature));
    }
    found := PlaceAt(a, columns, WeekdayFeature, x.weekday);
    if !found {
      VectorSteps(columns, x, hot);
      return Failure(UnknownColumn(WeekdayFeature));
    }
    found := PlaceAt(a, columns, HourFeature, x.hour);
    if !found {
      VectorSteps(columns, x, hot);
      return Failure(UnknownColumn(HourFeature));
    }
    ghost var v3 := a[..];
    SetIfPresent(a, columns, flightCol);
    SetIfPresent(a, columns, originCol);
    SetIfPresent(a, columns, destinationCol);
    VectorSteps(columns, x, hot);
    ActivateThree(v3, columns, flightCol, originCol, destinationCol);
    r := Success(a);
  }
}
