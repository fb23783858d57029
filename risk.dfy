/** The risk band shown for a delay probability. */
module Risk {

  datatype Band = Low | Medium | High

  /** `probability[0] * 100`: the predictor's fraction as a percentage. */
  function Percentage(raw: real): (p: real)
    ensures p > 50.0 <==> raw > 0.5
    ensures p > 20.0 <==> raw > 0.2
    ensures raw <= 0.0 ==> p <= 0.0
    ensures raw >= 1.0 ==> p >= 100.0
  {
    raw * 100.0
  }

  /** Strictly above 50 is HIGH, strictly above 20 is MEDIUM, anything else LOW. */
  function Classify(p: real): (b: Band)
    ensures b == High <==> p > 50.0
    ensures b == Medium <==> 20.0 < p <= 50.0
    ensures b == Low <==> p <= 20.0
  {
    if p > 50.0 then High
    else if p > 20.0 then Medium
    else Low
  }

  /** The bands in increasing order of risk. */
  function Rank(b: Band): nat {
    match b
    case Low => 0
    case Medium => 1
    case High => 2
  }

  /** A higher percentage never gets a lower band. */
  lemma ClassifyMonotone(p: real, q: real)
    requires p <= q
    ensures Rank(Classify(p)) <= Rank(Classify(q))
  {
  }

  /** The boundaries themselves fall in the lower band. */
  lemma Boundaries()
    ensures Classify(50.0) == Medium && Classify(50.0001) == High
    ensures Classify(20.0) == Low && Classify(20.0001) == Medium
  {
  }

  /** The same bands in terms of the predictor's fraction: above 0.5, above 0.2. */
  lemma BandOfFraction(raw: real)
    ensures Classify(Percentage(raw)) == High <==> raw > 0.5
    ensures Classify(Percentage(raw)) == Medium <==> 0.2 < raw <= 0.5
    ensures Classify(Percentage(raw)) == Low <==> raw <= 0.2
  {
  }
}
