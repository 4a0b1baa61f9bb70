# Calculator core (bk-ru/calc) in Dafny

A model of the logic inside the Qt desktop calculator bk-ru/calc:

- the calculator engine `CalcHandler`: a five-state machine with binary and unary operation dispatch that returns a tagged `{success, value, errorMessage}` result;
- the memory bank `MemoryManager`: an M+/M-/MS/MR/MC accumulator plus a newest-first list of at most ten stored values;
- the bounded newest-first expression log `CalculationHistory`, with its save and load formats;
- the display-string predicates of `InputValidator` and the helpers of `DisplayFormatter`;
- the display-entry handlers of `MainWindow`: digits, the decimal point, backspace, C and CE;
- the entry splitting and layout order of `HistoryPanel`.

Doubles are modelled as reals. Qt's `qFuzzyCompare` and `qFuzzyIsNull` are written out with their own tolerances, and the model proves what they amount to here.

Modules, one per source file plus shared helpers:

| module | file | models |
|---|---|---|
| `Numeric` | numeric.dfy | qFuzzyCompare, qFuzzyIsNull |
| `Strings` | strings.dfy | QString contains, lastIndexOf, endsWith, trimmed, and QChar::isSpace |
| `Sequences` | sequences.dfy | sequence reversal |
| `Config` | config.dfy | src/calculatorconfig.h |
| `Calc` | calc.dfy | src/calchandler.cpp |
| `Memory` | memory.dfy | src/memorymanager.cpp |
| `History` | history.dfy | src/calculationhistory.cpp |
| `Validation` | validation.dfy | src/inputvalidator.cpp |
| `Formatting` | formatting.dfy | src/displayformatter.cpp |
| `Panel` | panel.dfy | src/historypanel.cpp |
| `Window` | window.dfy | src/mainwindow.cpp |

Each class's state-changing methods are proved against specification functions, for example `BinaryOutcome`, `UnaryOutcome`, `Prepended`, `RemovedAt`, `WithEntry`, `Truncated`, `SaveText`, `ReadLines` and `Loaded`. Lemmas then state what those functions promise.

The Qt signals are recorded in ghost state:
- `memoryChanged` and `memoryListChanged` are appended to the log `MemoryManager.signals`;
- `historyChanged` is counted in `CalculationHistory.changes`.

The file round trip of the history log reverses the log. `saveToFile` writes the log newest first (src/calculationhistory.cpp:68-70). `loadFromFile` appends the lines back to front (src/calculationhistory.cpp:98-100). The comment at src/calculationhistory.cpp:96-97 says that loop is there to keep the original order, but together the two loops reverse the log. After a reload `getLast()` is the oldest entry that was saved, which is what tests/test_calculationhistory.cpp:136 expects. The model follows the code, and `History.SaveLoadReverses` proves the reversal.

A failed open in `loadFromFile` returns before the log is cleared, so the log is kept and `historyChanged` is still emitted. The model follows the code here too.

## Model

| member | source | states |
|---|---|---|
| Numeric.FuzzyCompareZero | src/calchandler.cpp:199-202 | qFuzzyCompare(d, 0.0) holds exactly when d is 0: the relative tolerance scales with the smaller magnitude |
| Numeric.FuzzyCompare | src/calchandler.cpp:199-202 | qFuzzyCompare holds for equal values, and only compares 0 with 0 |
| Numeric.FuzzyIsNull | src/memorymanager.cpp:45-48 | qFuzzyIsNull holds exactly for values between -1e-12 and 1e-12 |
| Strings.ContainsChar | src/displayformatter.cpp:36-39 | searching for a one-character string is membership of that character |
| Strings.Contains | src/displayformatter.cpp:36-39 | contains holds exactly when the pattern occurs at some index |
| Strings.LastIndexOf | src/historypanel.cpp:155 | the result is an occurrence with none after it, or -1 when there is no occurrence at all |
| Strings.EndsWith | src/displayformatter.cpp:28 | endsWith holds exactly when the text is some prefix followed by the suffix |
| Strings.Trimmed | src/calculationhistory.cpp:90 | the result starts and ends with a non-space character and is no longer than the input |
| Strings.TrimmedRemovesOnlySpace | src/calculationhistory.cpp:90 | the result is a contiguous slice of the input, and everything before and after that slice is white space |
| Strings.TrimmedIdempotent | src/calculationhistory.cpp:90 | trimming twice is trimming once |
| Sequences.Reverse | src/calculationhistory.cpp:98-100 | same length, element k is element n-1-k of the input |
| Sequences.ReverseInvolution | src/calculationhistory.cpp:98-100 | reversing twice gives the input back |
| Formatting.RemoveTrailingDecimal | src/displayformatter.cpp:26-34 | the result is a prefix at most one character shorter; it equals the input exactly when the input does not end in "."; otherwise appending "." restores the input |
| Formatting.RemoveTrailingDecimalExamples | tests/test_displayformatter.cpp:49-54 | the test's cases "42." to "42", "42.5" and "42" unchanged; also "42.." to "42." (one separator only) and "" unchanged |
| Formatting.HasDecimalPoint | src/displayformatter.cpp:36-39 | true exactly when the text holds '.' |
| Formatting.IsValidNumber | src/displayformatter.cpp:10-19 | the empty text is never a number; a number is text the parser accepts |
| Validation.CanAddDecimalPoint | src/inputvalidator.cpp:9-20 | true exactly when no '.' is present and the length is below maxLength - 1 |
| Validation.IsNotEmpty | src/inputvalidator.cpp:22-25 | true exactly when the length is positive |
| Validation.CanAddDigit | src/inputvalidator.cpp:4-7 | true exactly when one more character keeps the text within the bound |
| Validation.IsLengthExceeded | src/inputvalidator.cpp:27-30 | true exactly when no digit may be added |
| Validation.DecimalPointImpliesDigit | src/inputvalidator.cpp:4-20 | wherever a decimal point is accepted, a digit is accepted too |
| Validation.ValidatorExamples | tests/test_inputvalidator.cpp:18-43 | every case of the unit tests at maxLength 10: canAddDigit, canAddDecimalPoint (including the empty text), isNotEmpty and isLengthExceeded |
| Calc.IsValidDivision | src/calchandler.cpp:199-202 | a divisor is valid exactly when it is not 0 |
| Calc.BinaryOutcome | src/calchandler.cpp:44-86 | results are well tagged (a failure carries 0 and a message, a success no message); success exactly for Add, Subtract, Multiply and Divide by a nonzero value |
| Calc.UnaryOutcome | src/calchandler.cpp:88-137 | results are well tagged; success exactly for Percent, Negate, Square, SquareRoot of a non-negative value and Reciprocal of a nonzero value |
| Calc.OperationFromChar | src/calchandler.cpp:172-181 | + means Add, - Subtract, % Percent; x, X, * and U+00D7 mean Multiply; / and U+00F7 mean Divide; each exactly for those characters; every other character means None |
| Calc.OperationToString | src/calchandler.cpp:183-197 | the glyph is empty exactly for None |
| Calc.CharRoundTrip | src/calchandler.cpp:172-197 | for the five character operators the glyph is one character, and reading it back gives the operation |
| Calc.GlyphOfChar | src/calchandler.cpp:172-197 | a character outside the operator set reads as None and displays as ""; +, -, %, U+00D7 and U+00F7 display as themselves |
| Calc.BinaryInverses | src/calchandler.cpp:52-73 | subtracting b undoes adding b; dividing by a nonzero b undoes multiplying by it |
| Calc.BinaryExamples | tests/test_calchandler.cpp:84-125 | 5+3, 10-4, 6*7, 15/3 and the failed 10/0 of the unit tests |
| Calc.UnaryInverses | src/calchandler.cpp:95-127 | negation and the reciprocal of a nonzero value are involutions; a percentage is a hundredth |
| Calc.SquareOfRoot | src/calchandler.cpp:103-116 | the square root of a non-negative value succeeds and squares back to it |
| Calc.NonNegativeRootUnique | src/calchandler.cpp:107-115 | a non-negative number is fixed by its square, so any square root gives the one expected value |
| Calc.SquareRootExamples | tests/test_calchandler.cpp:158-190 | sqrt(16) is 4, sqrt(-4) fails, 1/4 is 0.25, 1/0 fails |
| Calc.FailureAsymmetry | src/calchandler.cpp:64-133 | unary failures that enter Error are failures; every other unary failure is the unknown-operation one; for any operands, every binary failure other than Divide is the unknown-operation one |
| Calc.CalcHandler.constructor | src/calchandler.cpp:5-12 | Idle, stored value 0, no operation, no stored value; the invariant that an operation is only recorded with a stored operand holds |
| Calc.CalcHandler.SetOperand | src/calchandler.cpp:14-22 | stores the value and the flag; Idle and ResultDisplayed move to OperandEntry, any other state stays; the invariant is kept |
| Calc.CalcHandler.SetOperation | src/calchandler.cpp:24-32 | without a stored value nothing changes; otherwise records the operation and moves to OperatorSelected; so an operation is never recorded without an operand |
| Calc.CalcHandler.Calculate | src/calchandler.cpp:34-42 | fails with the insufficient-data message and no change unless a value and an operation are stored; otherwise returns the stored value and moves to ResultDisplayed |
| Calc.CalcHandler.PerformBinaryOperation | src/calchandler.cpp:44-86 | returns BinaryOutcome; a success is stored and moves to ResultDisplayed, a failure moves to Error and keeps the stored value; the operation and flag are untouched |
| Calc.CalcHandler.ApplyUnaryOperation | src/calchandler.cpp:88-137 | returns UnaryOutcome; only a negative root or a zero reciprocal moves to Error; the stored value, operation and flag are untouched |
| Calc.CalcHandler.Clear | src/calchandler.cpp:139-145 | from any state, even one breaking the invariant, back to the initial state |
| Calc.CalcHandler.Reset | src/calchandler.cpp:147-150 | the same as clear |
| Calc.FirstCalculation | tests/test_calchandler.cpp:217-230 | the state sequence OperandEntry, OperatorSelected, ResultDisplayed of 5 + 3 = 8 |
| Calc.DivisionByZeroThenClear | tests/test_calchandler.cpp:117-125 | 10 / 0 fails with value 0 and leaves Error; clear returns to Idle |
| Memory.Prepended | src/memorymanager.cpp:55-65 | the new value is in front, followed by the old list minus its last entry when the list was full; the length never passes 10 |
| Memory.RemovedAt | src/memorymanager.cpp:83-93 | an index in range loses exactly that entry (one shorter, same multiset minus it, order kept); any other index changes nothing |
| Memory.PushAllKeepsNewest | src/memorymanager.cpp:55-65 | after several adds the list is the added values newest first, then the old list, cut to the ten newest |
| Memory.PushAllAppend | src/memorymanager.cpp:55-65 | adding one more value after a batch is adding the longer batch |
| Memory.MemoryManager.constructor | src/memorymanager.cpp:5-9 | the accumulator is 0 with no value; the list and the signal log are empty |
| Memory.MemoryManager.HasValue | src/memorymanager.cpp:45-48 | the register holds a value exactly when it lies more than 1e-12 away from 0 |
| Memory.MemoryManager.NotifyChange | src/memorymanager.cpp:107-110 | emits memoryChanged(hasValue()) once |
| Memory.MemoryManager.NotifyListChange | src/memorymanager.cpp:112-115 | emits memoryListChanged(size) once |
| Memory.MemoryManager.Add | src/memorymanager.cpp:11-16 | the accumulator grows by the value; the list is untouched; one memoryChanged |
| Memory.MemoryManager.Subtract | src/memorymanager.cpp:18-23 | the accumulator shrinks by the value; the list is untouched; one memoryChanged |
| Memory.MemoryManager.Recall | src/memorymanager.cpp:25-29 | returns the accumulator and changes nothing |
| Memory.MemoryManager.Clear | src/memorymanager.cpp:31-36 | the accumulator becomes 0 and holds no value; one memoryChanged(false) |
| Memory.MemoryManager.Store | src/memorymanager.cpp:38-43 | the accumulator becomes the value; the list is untouched; one memoryChanged |
| Memory.MemoryManager.AddToList | src/memorymanager.cpp:55-65 | the list becomes Prepended(old, value), so it starts with the value and holds at most 10; one memoryListChanged |
| Memory.MemoryManager.RecallFromList | src/memorymanager.cpp:72-81 | an index in range copies that entry into the accumulator and emits once; any other index changes and emits nothing; the list is untouched |
| Memory.MemoryManager.RemoveFromList | src/memorymanager.cpp:83-93 | the list becomes RemovedAt(old, index); it emits once only when the index was in range; the accumulator is untouched |
| Memory.MemoryManager.ClearList | src/memorymanager.cpp:95-100 | the list is emptied, the accumulator kept; one memoryListChanged(0) |
| Memory.AddThenSubtract | src/memorymanager.cpp:11-23 | M+ v then M- v on a fresh register leaves 0 and no value |
| Memory.FillPastCapacity | tests/test_memorymanager.cpp:255-274 | after adding 0, 10, ..., 140 the list holds ten values, 140 first, none below 50 |
| History.Truncated | src/calculationhistory.cpp:26-28 | a prefix of length min(size, bound) |
| History.WithEntry | src/calculationhistory.cpp:18-31 | an empty text changes nothing; otherwise the text is in front of the old entries, cut to the bound |
| History.SaveText | src/calculationhistory.cpp:67-70 | the text is empty exactly for an empty log, and otherwise ends in a newline |
| History.LineEnd | src/calculationhistory.cpp:89-90 | the index of the first newline, or the length when there is none |
| History.ReadLines | src/calculationhistory.cpp:88-90 | no more lines than characters, and no line holds a newline |
| History.KeptLines | src/calculationhistory.cpp:89-94 | the first load loop keeps at most one entry per line |
| History.Loaded | src/calculationhistory.cpp:85-100 | loading yields at most one entry per line |
| History.KeepLines | src/calculationhistory.cpp:87-94 | the first load loop yields KeptLines: every line trimmed, blank ones dropped, in file order |
| History.BackToFront | src/calculationhistory.cpp:98-100 | the second load loop yields the kept lines reversed |
| History.KeptLineClean | src/calculationhistory.cpp:90-93 | one line contributes at most one entry, and that entry is non-empty and trimmed |
| History.KeptLinesClean | src/calculationhistory.cpp:89-94 | every kept line is non-empty and trimmed |
| History.LoadedClean | src/calculationhistory.cpp:85-100 | every loaded entry is non-empty and trimmed |
| History.ReadSavedText | src/calculationhistory.cpp:59-94 | reading the lines of the saved text gives back the entries when none holds a newline |
| History.KeptLineOfClean | src/calculationhistory.cpp:90-93 | a clean line is kept as it is |
| History.KeptLinesOfClean | src/calculationhistory.cpp:89-94 | lines that are all clean are all kept, unchanged |
| History.SaveLoadReverses | src/calculationhistory.cpp:59-105 | loading the saved text of clean, single-line entries gives the log reversed: same count, and getLast is the oldest saved entry |
| History.SaveTextAppend | src/calculationhistory.cpp:67-70 | saving one more entry appends that entry and a newline |
| History.CalculationHistory.constructor | src/calculationhistory.cpp:6-10 | an empty log with the bound 20 |
| History.CalculationHistory.GetLast | src/calculationhistory.cpp:39-45 | the empty string on an empty log, otherwise the newest entry, the head of the list |
| History.CalculationHistory.AddEntry | src/calculationhistory.cpp:18-31 | the log becomes WithEntry(old, text, bound), within the bound; historyChanged is emitted only for a non-empty text |
| History.CalculationHistory.Clear | src/calculationhistory.cpp:52-57 | the log is emptied; one historyChanged |
| History.CalculationHistory.SaveToFile | src/calculationhistory.cpp:59-74 | the written text is SaveText of the log: each entry and a newline, newest first |
| History.CalculationHistory.LoadFromFile | src/calculationhistory.cpp:76-105 | a file that cannot be opened keeps the log; otherwise the log becomes Loaded(ReadLines(text)), with no bound applied; historyChanged is emitted once in both cases |
| History.CalculationHistory.SetMaxSize | src/calculationhistory.cpp:107-114 | the bound is set and the log is cut from the back to fit it; no signal |
| History.KeepsNewestThree | tests/test_calculationhistory.cpp:54-65 | with the bound 3, four adds leave the three newest, newest first, and getLast is the fourth |
| History.ExampleStorable | tests/test_calculationhistory.cpp:126-128 | the three entries of the save-and-load test are clean single lines |
| History.SaveThenLoad | tests/test_calculationhistory.cpp:119-137 | saving three entries and loading them gives count 3 and getLast "5 + 3 = 8", the first one added |
| Panel.ParseSplitsAtLastSeparator | src/historypanel.cpp:152-164 | with " = " present, expression + " = " + result rebuilds the entry, the separator between them is an occurrence with none after it, and the result holds no " = "; without it the entry is all expression and the result is empty |
| Panel.ParseExpression | src/historypanel.cpp:152-164 | the expression is a prefix of the entry and the result a suffix |
| Panel.ParseExamples | src/historypanel.cpp:152-164 | "5 + 3 = 8" splits into "5 + 3" and "8"; "42" has no result |
| Panel.OccursInSuffix | src/historypanel.cpp:155 | an occurrence in a suffix is an occurrence in the whole entry |
| Panel.Parsed | src/historypanel.cpp:138-141 | one item per entry, in the same order, each split by parseExpression |
| Panel.UpdateHistory | src/historypanel.cpp:130-149 | walking the log back to front and inserting at the top lays the items out in the log's order, newest on top, each split by parseExpression |
| Window.MainWindow.constructor | src/mainwindow.cpp:20-31 | an empty display, both flags clear and a fresh, cleared engine |
| Window.MainWindow.HandleDigitInput | src/mainwindow.cpp:119-138 | after an operator or a result the entry restarts empty and both flags clear; the digit is appended only when fewer than 10 characters are shown, else the display is unchanged; the length bound 10 is kept |
| Window.MainWindow.OnDecimalPointClicked | src/mainwindow.cpp:140-161 | a refused point leaves the display; on an empty entry it shows "0.", else it appends "."; the display never gains a second '.' and keeps the length bound |
| Window.MainWindow.OnDeleteClicked | src/mainwindow.cpp:289-299 | drops the last character, does nothing on an empty display, leaves the flags |
| Window.MainWindow.OnClearClicked | src/mainwindow.cpp:301-307 | empties the display, clears the engine and both flags |
| Window.MainWindow.OnClearEntryClicked | src/mainwindow.cpp:309-313 | empties the display and clears only the result flag |
| Window.DigitsThenDelete | tests/test_mainwindow.cpp:74-160 | 1, 2, 3 show "123"; backspace shows "12"; CE empties the display |
| Window.DecimalThenDigit | tests/test_mainwindow.cpp:83-89 | a point then 5 shows "0.5"; a second point is ignored |
| Window.EleventhDigit | src/mainwindow.cpp:129-134 | eleven digits show only the first ten |

## Left out

- Doubles are reals. IEEE rounding, overflow, infinities and NaN are not modelled, so `BinaryInverses` and `UnaryInverses` hold exactly here where doubles would round.
- `std::sqrt` is a library routine. It is a parameter `sqrt` of `UnaryOutcome` and `ApplyUnaryOperation`; lemmas about it assume `IsSquareRoot(sqrt)`.
- `DisplayFormatter::formatNumber` and `toDouble` are Qt's number formatting and parsing, and are not modelled. `IsValidNumber` takes the parser's success flag as a parameter `parses`.
- The `addEntry(expression, double)` overload (src/calculationhistory.cpp:12-16) formats a double, so it is not modelled.
- File I/O is not modelled. `SaveToFile` returns the text that would be written. `LoadFromFile` takes the text read, or `None` when the file cannot be opened. A write failure, and the text-mode translation of "\r\n", are not modelled.
- `qDebug` logging, the shake and flash animations on a refused digit, and all widget, clipboard and theme code are not modelled.
- The getters `getAll`, `count` and `maxSize` of CalculationHistory and `value`, `getMemoryList` and `listSize` of MemoryManager are plain field reads, written as functions without contracts of their own. CalcHandler's `currentState`, `storedValue`, `currentOperation` and `hasStoredValue` return its fields, which the model reads directly as `state`, `storedValue`, `operation` and `hasStoredValue`. `hasValue` and `getLast` hold logic and are modelled with contracts: `Memory.MemoryManager.HasValue` and `History.CalculationHistory.GetLast`.
- Window.MainWindow.HandleDigitInput: the digit is one character. Every digit button of the source has one-character text.
- Window.MainWindow.constructor: only the display, the flags and the engine are modelled. The history file load and the theme and signal wiring of the source's constructor are not.
- `setDisplayText`, `getDisplayText` and `clearDisplay` are reads and writes of the display text field.
- Panel.UpdateHistory: the empty-log placeholder, the trailing layout stretch and the removal of the previous widgets are not modelled. Only the order and content of the items are.
- History.CalculationHistory.SetMaxSize: requires a non-negative bound. With a negative bound the source's loop at src/calculationhistory.cpp:111-113 would call removeLast on an empty list, which Qt does not allow; the model leaves that call out.
- Strings.Trimmed: the white-space set is QChar::isSpace for the characters listed in `Strings.IsSpace`, without a Unicode database.
- `handleOperatorInput`, `performCalculation` and `applyUnaryOperation` of src/mainwindow.cpp depend on number parsing and formatting, so they are not modelled.
