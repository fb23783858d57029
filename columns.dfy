/** One-hot column names: a category prefix followed by the code the user typed.
    Port codes are upper-cased first; the flight code is used as typed. */
module Columns {
  import opened Schema

  const FlightPrefix: string := "Flight_"
  const OriginPrefix: string := "PortFrom_"
  const DestinationPrefix: string := "PortTo_"

  predicate IsLowerAscii(c: char) {
    'a' <= c <= 'z'
  }

  /** `toUpperCase` on one character, for the ASCII letters. */
  function UpperAscii(c: char): (u: char)
    ensures !IsLowerAscii(u)
    ensures IsLowerAscii(c) ==> u as int == c as int - 32
    ensures !IsLowerAscii(c) ==> u == c
  {
    if IsLowerAscii(c) then (c as int - 32) as char else c
  }

  /** `toUpperCase` on a code: every ASCII lower-case letter becomes its capital. */
  function ToUpper(s: string): (r: string)
    ensures |r| == |s|
    ensures forall i :: 0 <= i < |s| ==> r[i] == UpperAscii(s[i])
  {
    seq(|s|, i requires 0 <= i < |s| => UpperAscii(s[i]))
  }

  /** Upper-casing twice is upper-casing once. */
  lemma ToUpperIdempotent(s: string)
    ensures ToUpper(ToUpper(s)) == ToUpper(s)
  {
    assert forall i :: 0 <= i < |s| ==> UpperAscii(UpperAscii(s[i])) == UpperAscii(s[i]);
  }

  /** A code with no lower-case ASCII letter is left as it is. */
  lemma ToUpperKeepsCapitals(s: string)
    requires forall i :: 0 <= i < |s| ==> !IsLowerAscii(s[i])
    ensures ToUpper(s) == s
  {
  }

  /** `'Flight_' + flight`: the prefix, then the code as typed. */
  function FlightColumn(code: string): (col: string)
    ensures |col| == |FlightPrefix| + |code|
    ensures col[..|FlightPrefix|] == FlightPrefix && col[|FlightPrefix|..] == code
  {
    FlightPrefix + code
  }

  /** `'PortFrom_' + origen`, where `origen` was upper-cased when it was read. */
  function OriginColumn(code: string): (col: string)
    ensures |col| == |OriginPrefix| + |code|
    ensures col[..|OriginPrefix|] == OriginPrefix && col[|OriginPrefix|..] == ToUpper(code)
  {
    OriginPrefix + ToUpper(code)
  }

  /** `'PortTo_' + destino`, where `destino` was upper-cased when it was read. */
  function DestinationColumn(code: string): (col: string)
    ensures |col| == |DestinationPrefix| + |code|
    ensures col[..|DestinationPrefix|] == DestinationPrefix && col[|DestinationPrefix|..] == ToUpper(code)
  {
    DestinationPrefix + ToUpper(code)
  }

  /** The code can be read back from each column name: the flight code as typed,
      a port code upper-cased. */
  lemma ColumnCodes(flight: string, origin: string, destination: string)
    ensures FlightColumn(flight)[|FlightPrefix|..] == flight
    ensures OriginColumn(origin)[|OriginPrefix|..] == ToUpper(origin)
    ensures DestinationColumn(destination)[|DestinationPrefix|..] == ToUpper(destination)
  {
  }

  /** Two flight codes share a column only if they are equal; two port codes share a
      column exactly when they agree after upper-casing ("jfk" and "JFK" do). */
  lemma ColumnsIdentifyCodes(a: string, b: string)
    ensures FlightColumn(a) == FlightColumn(b) <==> a == b
    ensures OriginColumn(a) == OriginColumn(b) <==> ToUpper(a) == ToUpper(b)
    ensures DestinationColumn(a) == DestinationColumn(b) <==> ToUpper(a) == ToUpper(b)
  {
    if FlightColumn(a) == FlightColumn(b) {
      assert FlightColumn(a)[|FlightPrefix|..] == a;
      assert FlightColumn(b)[|FlightPrefix|..] == b;
    }
    if OriginColumn(a) == OriginColumn(b) {
      assert OriginColumn(a)[|OriginPrefix|..] == ToUpper(a);
      assert OriginColumn(b)[|OriginPrefix|..] == ToUpper(b);
    }
    if DestinationColumn(a) == DestinationColumn(b) {
      assert DestinationColumn(a)[|DestinationPrefix|..] == ToUpper(a);
      assert DestinationColumn(b)[|DestinationPrefix|..] == ToUpper(b);
    }
  }

  /** The three categories never name the same column, and none of them names a
      numeric feature, so the six writes of one query go to six different names. */
  lemma ColumnsDisjoint(flight: string, origin: string, destination: string)
    ensures FlightColumn(flight) != OriginColumn(origin)
    ensures FlightColumn(flight) != DestinationColumn(destination)
    ensures OriginColumn(origin) != DestinationColumn(destination)
    ensures forall col :: col in [FlightColumn(flight), OriginColumn(origin), DestinationColumn(destination)] ==>
      col != MonthFeature && col != WeekdayFeature && col != HourFeature
  {
    assert FlightColumn(flight)[0] == 'F' && OriginColumn(origin)[0] == 'P';
    assert DestinationColumn(destination)[0] == 'P';
    assert OriginColumn(origin)[4] == 'F' && DestinationColumn(destination)[4] == 'T';
  }
}
