/** The calculator's configuration constants (src/calculatorconfig.h). */
module Config {

  /** The most characters digit entry may put on the display. */
  const MAX_DIGIT_LENGTH: int := 10

  /** The decimal separator, a one-character string. */
  const DECIMAL_SEPARATOR: string := "."

  /** What the display shows when a decimal point starts an empty entry. */
  const ZERO_WITH_DECIMAL: string := "0."
}
