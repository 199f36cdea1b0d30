/**
  The birth-date rule of the validator: a date is required, may not lie in
  the future, and must be at least 13 years of 365.25 days back. Dates are
  timestamps in milliseconds, as JavaScript's `Date` compares them.
 */
module BirthDate {
  import opened Wrappers

  /** Why a birth date is refused. */
  datatype Problem = Missing | Future | UnderAge {

    /** The message the birth slot shows for the problem. */
    function Text(): (r: string) {
      match this
      case Missing => "Please select your birth date."
      case Future => "Birth date cannot be in the future."
      case UnderAge => "You must be at least 13 years old."
    }
  }

  /** One day in milliseconds. */
  const MsPerDay: int := 24 * 60 * 60 * 1000

  /** The minimum age, 13 years of 365.25 days, in milliseconds. */
  const MinAgeMs: int := 410_248_800_000

  /** The age in years the validator computes: elapsed milliseconds divided
      by the length of a 365.25-day year. */
  function AgeYears(birthMs: int, nowMs: int): (years: real) {
    (nowMs - birthMs) as real / (365.25 * 24.0 * 60.0 * 60.0 * 1000.0)
  }

  /** The age test `age < 13` is the integer test "less than 13 years of
      365.25 days have elapsed". */
  lemma AgeBelowThirteen(birthMs: int, nowMs: int)
    ensures AgeYears(birthMs, nowMs) < 13.0 <==> nowMs - birthMs < MinAgeMs
  {
    assert 13.0 * (365.25 * 24.0 * 60.0 * 60.0 * 1000.0) == MinAgeMs as real;
  }

  /** The birth-date check: `birth` is the raw field value, `birthMs` the
      instant it denotes and `nowMs` the current instant. `None` means the
      check passes. The age test is stated on milliseconds;
      `AgeBelowThirteen` shows it is the validator's `age < 13`. */
  function BirthCheck(birth: string, birthMs: int, nowMs: int): (problem: Option<Problem>) {
    if birth != "" then
      if birthMs > nowMs then Some(Future)
      else if nowMs - birthMs < MinAgeMs then Some(UnderAge)
      else None
    else
      Some(Missing)
  }

  /** The check passes exactly when a date is given, it is not in the
      future, and at least 13 years of 365.25 days have elapsed since. */
  lemma BirthPasses(birth: string, birthMs: int, nowMs: int)
    ensures BirthCheck(birth, birthMs, nowMs) == None
            <==> birth != "" && birthMs <= nowMs && nowMs - birthMs >= MinAgeMs
  {
  }

  /** Which problem a failing check reports: the missing date first, then a
      future date (although a future date is also under 13), then the age. */
  lemma BirthFailures(birth: string, birthMs: int, nowMs: int)
    ensures birth == "" ==> BirthCheck(birth, birthMs, nowMs) == Some(Missing)
    ensures birth != "" && birthMs > nowMs ==> BirthCheck(birth, birthMs, nowMs) == Some(Future)
    ensures birth != "" && birthMs <= nowMs && nowMs - birthMs < MinAgeMs
            ==> BirthCheck(birth, birthMs, nowMs) == Some(UnderAge)
  {
  }

  /** The boundary: exactly 13 years of 365.25 days passes, one day less
      fails with the age message. */
  lemma BirthBoundary(birth: string, nowMs: int)
    requires birth != ""
    ensures BirthCheck(birth, nowMs - MinAgeMs, nowMs) == None
    ensures BirthCheck(birth, nowMs - MinAgeMs + MsPerDay, nowMs) == Some(UnderAge)
  {
  }
}
