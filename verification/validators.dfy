/** The release-year validator of reviews/validators.py; today's year is a parameter. */
module Validators {

  datatype Validated = Accepted(value: int) | ValidationError(message: string)

  /** The message the validator raises with. */
  const YearMessage := "Проверьте год"

  /**
    A year later than the current one is refused; any other year, the
    current one, zero and negative years included, is returned unchanged.
  */
  function ValidateYear(value: int, currentYear: int): (r: Validated)
    ensures r.Accepted? <==> value <= currentYear
    ensures r.Accepted? ==> r.value == value
    ensures r.ValidationError? ==> r.message == YearMessage
  {
    if value > currentYear then ValidationError(YearMessage) else Accepted(value)
  }

  /** The current year itself is accepted, and there is no lower bound. */
  lemma YearBounds(currentYear: int, earlier: int)
    requires earlier <= currentYear
    ensures ValidateYear(currentYear, currentYear) == Accepted(currentYear)
    ensures ValidateYear(earlier, currentYear) == Accepted(earlier)
    ensures currentYear >= 0 ==> ValidateYear(0, currentYear) == Accepted(0) && ValidateYear(-1, currentYear) == Accepted(-1)
    ensures ValidateYear(currentYear + 1, currentYear).ValidationError?
  {
  }
}
