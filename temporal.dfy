/** Decomposition of the departure instant into the three calendar features the
    classifier was trained on. The instant itself (JavaScript's `Date`, built from the
    form's date and time in the local time zone) is represented by the three values its
    accessors return. */
module Temporal {

  /** What `getMonth()`, `getDay()` and `getHours()` return: month 0..11, weekday
      0..6 counted from Sunday, hour 0..23. */
  datatype NativeInstant = NativeInstant(month: int, day: int, hours: int) {
    predicate Valid() {
      0 <= month <= 11 && 0 <= day <= 6 && 0 <= hours <= 23
    }
  }

  /** The features as the training data has them: month 1..12, weekday counted from
      Monday, hour of day. */
  datatype TimeFeatures = TimeFeatures(month: int, weekday: int, hour: int)

  /** Sunday-first weekday to Monday-first weekday. */
  function MondayFirst(d: int): (w: int)
    requires 0 <= d <= 6
    ensures 0 <= w <= 6
  {
    (d + 6) % 7
  }

  /** Monday-first weekday back to Sunday-first: the inverse of `MondayFirst`. */
  function SundayFirst(w: int): (d: int)
    requires 0 <= w <= 6
    ensures 0 <= d <= 6
  {
    (w + 1) % 7
  }

  lemma WeekdayRoundTrip(d: int, w: int)
    requires 0 <= d <= 6 && 0 <= w <= 6
    ensures SundayFirst(MondayFirst(d)) == d
    ensures MondayFirst(SundayFirst(w)) == w
  {
  }

  /** The remap is a bijection of 0..6 onto itself: it is injective, and every
      Monday-first weekday is the image of its Sunday-first counterpart. */
  lemma MondayFirstBijective()
    ensures forall d1, d2 :: 0 <= d1 <= 6 && 0 <= d2 <= 6 && MondayFirst(d1) == MondayFirst(d2) ==> d1 == d2
    ensures forall w :: 0 <= w <= 6 ==> MondayFirst(SundayFirst(w)) == w
  {
    forall d1, d2 | 0 <= d1 <= 6 && 0 <= d2 <= 6 && MondayFirst(d1) == MondayFirst(d2)
      ensures d1 == d2
    {
      WeekdayRoundTrip(d1, 0);
      WeekdayRoundTrip(d2, 0);
    }
    forall w | 0 <= w <= 6
      ensures MondayFirst(SundayFirst(w)) == w
    {
      WeekdayRoundTrip(0, w);
    }
  }

  /** Sunday becomes 6, Monday 0 and Saturday 5. */
  lemma NamedWeekdays()
    ensures MondayFirst(0) == 6 && MondayFirst(1) == 0 && MondayFirst(6) == 5
  {
  }

  /** Month shifted to 1..12, weekday remapped to Monday-first, hour unchanged. */
  function Decompose(t: NativeInstant): (f: TimeFeatures)
    requires t.Valid()
    ensures 1 <= f.month <= 12 && 0 <= f.weekday <= 6 && 0 <= f.hour <= 23
    ensures f.month - 1 == t.month
    ensures SundayFirst(f.weekday) == t.day
    ensures f.hour == t.hours
  {
    WeekdayRoundTrip(t.day, 0);
    TimeFeatures(t.month + 1, MondayFirst(t.day), t.hours)
  }
}
