/** The `Periodicity` enumeration and its lookup of a bar's length. */
module Periodicities {
  import opened Wrappers

  /** The four string values of the `Periodicity` enumeration. The periodicity
      reaches the lookup as the raw value of a select box, so any string may
      arrive. */
  const OneMinute: string := "1 minute"
  const FiveMinute: string := "5 minute"
  const ThirtyMinute: string := "30 minute"
  const OneHour: string := "1 hour"

  predicate IsPeriodicity(tag: string) {
    tag == OneMinute || tag == FiveMinute || tag == ThirtyMinute || tag == OneHour
  }

  /** `getPeriodMilliseconds`: the length of one bar in milliseconds; the
      `default` branch throws. */
  function PeriodMilliseconds(periodicity: string): (r: Result<int>)
    ensures r.Ok? <==> IsPeriodicity(periodicity)
    ensures r.Err? ==> r.error == UnsupportedPeriodicity
    ensures periodicity == OneMinute ==> r == Ok(60000)
    ensures periodicity == FiveMinute ==> r == Ok(300000)
    ensures periodicity == ThirtyMinute ==> r == Ok(1800000)
    ensures periodicity == OneHour ==> r == Ok(3600000)
  {
    if periodicity == OneMinute then Ok(60000)
    else if periodicity == FiveMinute then Ok(300000)
    else if periodicity == ThirtyMinute then Ok(1800000)
    else if periodicity == OneHour then Ok(3600000)
    else Err(UnsupportedPeriodicity)
  }

  /** Every supported periodicity is a positive whole number of minutes, and
      distinct periodicities have distinct lengths, so a bar length names its
      periodicity. */
  lemma PeriodsArePositiveWholeMinutes(p: string, q: string)
    requires PeriodMilliseconds(p).Ok? && PeriodMilliseconds(q).Ok?
    ensures PeriodMilliseconds(p).value > 0
    ensures PeriodMilliseconds(p).value % 60000 == 0
    ensures PeriodMilliseconds(p).value == PeriodMilliseconds(q).value <==> p == q
  {
  }
}
