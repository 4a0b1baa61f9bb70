/** DisplayFormatter: the string helpers the display logic uses. Number
    formatting and parsing (QString::number, QString::toDouble) are Qt's
    floating-point routines and enter only as a parameter of IsValidNumber. */
module Formatting {
  import Strings
  import Config

  /** Drops one trailing decimal separator, so "42." reads "42". */
  function RemoveTrailingDecimal(text: string): (r: string)
    ensures |text| - 1 <= |r| <= |text| && r == text[..|r|]
    ensures r == text <==> !Strings.EndsWith(text, Config.DECIMAL_SEPARATOR)
    ensures r != text ==> r + Config.DECIMAL_SEPARATOR == text
  {
    if Strings.EndsWith(text, Config.DECIMAL_SEPARATOR) then text[..|text| - 1] else text
  }

  /** The display text already holds a decimal separator. */
  function HasDecimalPoint(text: string): (r: bool)
    ensures r <==> '.' in text
  {
    Strings.ContainsChar(text, '.');
    Strings.Contains(text, Config.DECIMAL_SEPARATOR)
  }

  /** The text is a number: it is not empty and the host's parser accepts it.
      `parses` stands for the success flag of QString::toDouble. */
  function IsValidNumber(text: string, parses: string -> bool): (r: bool)
    ensures text == "" ==> !r
    ensures r ==> parses(text)
  {
    if text == "" then false else parses(text)
  }

  /** Exactly one separator is removed, even when the text ends in several. */
  lemma RemoveTrailingDecimalExamples()
    ensures RemoveTrailingDecimal("42.") == "42"
    ensures RemoveTrailingDecimal("42..") == "42."
    ensures RemoveTrailingDecimal("42.5") == "42.5"
    ensures RemoveTrailingDecimal("42") == "42"
    ensures RemoveTrailingDecimal("") == ""
  {
    assert Strings.EndsWith("42.", ".");
    assert Strings.EndsWith("42..", ".");
    assert !Strings.EndsWith("42", ".") by { assert "42"[1..] != "."; }
    assert !Strings.EndsWith("42.5", ".") by { assert "42.5"[3..] != "."; }
  }
}
