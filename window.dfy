/** MainWindow's display-entry handlers: digit entry, the decimal point,
    backspace, C and CE. The display label's text is a field; the flags
    operatorClicked and resultDisplayed say whether the next keystroke starts
    a new number. Animations and logging are not modelled. */
module Window {
  import Calc
  import Config
  import Validation

  class MainWindow {
    var displayText: string
    var operatorClicked: bool
    var resultDisplayed: bool
    const calcHandler: Calc.CalcHandler

    constructor ()
      ensures displayText == "" && !operatorClicked && !resultDisplayed
      ensures fresh(calcHandler) && calcHandler.Valid() && calcHandler.Cleared()
    {
      displayText := "";
      operatorClicked := false;
      resultDisplayed := false;
      calcHandler := new Calc.CalcHandler();
    }

    /** The text the next keystroke extends: empty once an operator or a
        result is showing. */
    function EntryText(): (r: string)
      reads this
    {
      if operatorClicked || resultDisplayed then "" else displayText
    }

    /** Appends a digit unless the display already holds MAX_DIGIT_LENGTH
        characters; a rejected digit leaves the display as it was. */
    method HandleDigitInput(digit: char)
      modifies this
      ensures !operatorClicked && !resultDisplayed
      ensures var start := old(EntryText());
        displayText == if Validation.CanAddDigit(start, Config.MAX_DIGIT_LENGTH)
                       then start + [digit] else old(displayText)
      ensures |old(displayText)| <= Config.MAX_DIGIT_LENGTH ==> |displayText| <= Config.MAX_DIGIT_LENGTH
    {
      var text := displayText;
      if operatorClicked || resultDisplayed {
        text := "";
        operatorClicked := false;
        resultDisplayed := false;
      }
      if !Validation.CanAddDigit(text, Config.MAX_DIGIT_LENGTH) {
        return;
      }
      text := text + [digit];
      displayText := text;
    }

    /** Appends a decimal point, written "0." on an empty display, unless one
        is present or fewer than two places are left. */
    method OnDecimalPointClicked()
      modifies this
      ensures !operatorClicked && !resultDisplayed
      ensures var start := old(EntryText());
        displayText == if !Validation.CanAddDecimalPoint(start, Config.MAX_DIGIT_LENGTH) then old(displayText)
                       else if start == "" then Config.ZERO_WITH_DECIMAL
                       else start + Config.DECIMAL_SEPARATOR
      ensures multiset(old(displayText))['.'] <= 1 ==> multiset(displayText)['.'] <= 1
      ensures |old(displayText)| <= Config.MAX_DIGIT_LENGTH ==> |displayText| <= Config.MAX_DIGIT_LENGTH
    {
      var text := displayText;
      if operatorClicked || resultDisplayed {
        text := "";
        operatorClicked := false;
        resultDisplayed := false;
      }
      if !Validation.CanAddDecimalPoint(text, Config.MAX_DIGIT_LENGTH) {
        return;
      }
      if text == "" {
        text := Config.ZERO_WITH_DECIMAL;
      } else {
        text := text + Config.DECIMAL_SEPARATOR;
      }
      displayText := text;
    }

    /** Backspace: drops the last character of a non-empty display. */
    method OnDeleteClicked()
      modifies this
      ensures displayText == if old(displayText) == "" then "" else old(displayText)[..|old(displayText)| - 1]
      ensures operatorClicked == old(operatorClicked) && resultDisplayed == old(resultDisplayed)
    {
      var text := displayText;
      if text == "" {
        return;
      }
      text := text[..|text| - 1];
      displayText := text;
    }

    /** C: clears the display, resets the engine and both flags. */
    method OnClearClicked()
      modifies this, calcHandler
      ensures displayText == "" && !operatorClicked && !resultDisplayed
      ensures calcHandler.Valid() && calcHandler.Cleared()
    {
      displayText := "";
      calcHandler.Clear();
      operatorClicked := false;
      resultDisplayed := false;
    }

    /** CE: clears the display only; the engine and a pending operator stay. */
    method OnClearEntryClicked()
      modifies this
      ensures displayText == "" && !resultDisplayed
      ensures operatorClicked == old(operatorClicked)
    {
      displayText := "";
      resultDisplayed := false;
    }
  }

  /** Keys 1, 2, 3 show "123"; backspace then shows "12"; CE empties it. */
  method DigitsThenDelete() returns (typed: string, deleted: string, cleared: string)
    ensures typed == "123" && deleted == "12" && cleared == ""
  {
    var w := new MainWindow();
    w.HandleDigitInput('1');
    w.HandleDigitInput('2');
    w.HandleDigitInput('3');
    typed := w.displayText;
    w.OnDeleteClicked();
    deleted := w.displayText;
    w.OnClearEntryClicked();
    cleared := w.displayText;
  }

  /** A decimal point on an empty display then 5 shows "0.5"; a second
      decimal point is ignored. */
  method DecimalThenDigit() returns (shown: string)
    ensures shown == "0.5"
  {
    var w := new MainWindow();
    w.OnDecimalPointClicked();
    w.HandleDigitInput('5');
    w.OnDecimalPointClicked();
    shown := w.displayText;
  }

  /** An eleventh digit is refused. */
  method EleventhDigit() returns (shown: string)
    ensures shown == "1111111111"
  {
    var w := new MainWindow();
    var i := 0;
    while i < 11
      invariant 0 <= i <= 11
      invariant !w.operatorClicked && !w.resultDisplayed
      invariant w.displayText == seq(if i < 10 then i else 10, _ => '1')
    {
      w.HandleDigitInput('1');
      i := i + 1;
    }
    shown := w.displayText;
  }
}
