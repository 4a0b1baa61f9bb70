/** InputValidator: whether another digit or a decimal point may be appended
    to the display text, given the display's length bound. */
module Validation {
  import Formatting

  /** Another digit fits: the text stays within the bound once one more
      character is appended. */
  function CanAddDigit(currentText: string, maxLength: int): (r: bool)
    ensures r <==> |currentText| + 1 <= maxLength
  {
    |currentText| < maxLength
  }

  /** A decimal point may be appended: none is present yet, and one slot is
      still left after it for a digit. */
  function CanAddDecimalPoint(currentText: string, maxLength: int): (r: bool)
    ensures r <==> '.' !in currentText && |currentText| < maxLength - 1
  {
    if Formatting.HasDecimalPoint(currentText) then false
    else if |currentText| >= maxLength - 1 then false
    else true
  }

  function IsNotEmpty(text: string): (r: bool)
    ensures r <==> |text| > 0
  {
    !(text == "")
  }

  /** The text has reached the bound: exactly when no digit fits. */
  function IsLengthExceeded(text: string, maxLength: int): (r: bool)
    ensures r <==> !CanAddDigit(text, maxLength)
  {
    |text| >= maxLength
  }

  /** Wherever a decimal point is accepted, a digit would be accepted too. */
  lemma DecimalPointImpliesDigit(text: string, maxLength: int)
    ensures CanAddDecimalPoint(text, maxLength) ==> CanAddDigit(text, maxLength)
  {
  }

  /** The bounds from the unit tests, at the display bound 10. */
  lemma ValidatorExamples()
    ensures CanAddDigit("123", 10) && !CanAddDigit("1234567890", 10)
    ensures CanAddDecimalPoint("123", 10) && !CanAddDecimalPoint("12.3", 10)
    ensures !CanAddDecimalPoint("123456789", 10)
    ensures CanAddDigit("", 10) && CanAddDecimalPoint("", 10)
    ensures IsNotEmpty("123") && !IsNotEmpty("")
    ensures IsLengthExceeded("1234567890", 10) && !IsLengthExceeded("123", 10)
  {
    assert '.' in "12.3" by { assert "12.3"[2] == '.'; }
  }
}
