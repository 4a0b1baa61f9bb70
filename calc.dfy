/** CalcHandler: the calculator's operand/operator state machine and its
    binary and unary operation dispatch. Doubles are modelled as reals;
    std::sqrt, a library call, is passed in as the function `sqrt`. */
module Calc {
  import Numeric

  datatype State = Idle | OperandEntry | OperatorSelected | ResultDisplayed | Error

  datatype Operation =
    | None | Add | Subtract | Multiply | Divide
    | Percent | Negate | Square | SquareRoot | Reciprocal

  /** The tagged outcome every evaluation returns. */
  datatype CalculationResult = CalculationResult(success: bool, value: real, errorMessage: string)

  const INSUFFICIENT_DATA: string := "Недостаточно данных для вычисления"
  const DIVISION_BY_ZERO: string := "Ошибка: деление на 0"
  const UNKNOWN_OPERATION: string := "Неизвестная операция"
  const NEGATIVE_SQUARE_ROOT: string := "Ошибка: корень из отрицательного числа"
  const UNKNOWN_UNARY_OPERATION: string := "Неизвестная унарная операция"

  function Succeeded(value: real): (r: CalculationResult)
  {
    CalculationResult(true, value, "")
  }

  function Failed(message: string): (r: CalculationResult)
  {
    CalculationResult(false, 0.0, message)
  }

  /** Every failure carries the value 0 and a message; every success has an
      empty message. */
  predicate WellTagged(r: CalculationResult)
  {
    if r.success then r.errorMessage == "" else r.value == 0.0 && r.errorMessage != ""
  }

  /** `sqrt` behaves as the square root on the non-negative reals. */
  ghost predicate IsSquareRoot(sqrt: real -> real)
  {
    forall x :: x >= 0.0 ==> sqrt(x) >= 0.0 && sqrt(x) * sqrt(x) == x
  }

  /** isValidDivision: the divisor does not compare fuzzily equal to zero. */
  function IsValidDivision(divisor: real): (r: bool)
    ensures r <==> divisor != 0.0
  {
    Numeric.FuzzyCompareZero(divisor);
    !Numeric.FuzzyCompare(divisor, 0.0)
  }

  /** What performBinaryOperation returns. */
  function BinaryOutcome(operand1: real, operand2: real, op: Operation): (r: CalculationResult)
    ensures WellTagged(r)
    ensures r.success <==> op in {Add, Subtract, Multiply} || (op == Divide && operand2 != 0.0)
  {
    match op
    case Add => Succeeded(operand1 + operand2)
    case Subtract => Succeeded(operand1 - operand2)
    case Multiply => Succeeded(operand1 * operand2)
    case Divide =>
      if !IsValidDivision(operand2) then Failed(DIVISION_BY_ZERO)
      else Succeeded(operand1 / operand2)
    case _ => Failed(UNKNOWN_OPERATION)
  }

  /** What applyUnaryOperation returns. */
  function UnaryOutcome(op: Operation, value: real, sqrt: real -> real): (r: CalculationResult)
    ensures WellTagged(r)
    ensures r.success <==>
      op in {Percent, Negate, Square} || (op == SquareRoot && value >= 0.0) || (op == Reciprocal && value != 0.0)
  {
    match op
    case Percent => Succeeded(value * 0.01)
    case Negate => Succeeded(-value)
    case Square => Succeeded(value * value)
    case SquareRoot =>
      if value < 0.0 then Failed(NEGATIVE_SQUARE_ROOT) else Succeeded(sqrt(value))
    case Reciprocal =>
      if !IsValidDivision(value) then Failed(DIVISION_BY_ZERO) else Succeeded(1.0 / value)
    case _ => Failed(UNKNOWN_UNARY_OPERATION)
  }

  /** The unary failures that also put the engine into the Error state: an
      unknown unary operation fails without doing so. */
  predicate UnaryEntersError(op: Operation, value: real)
  {
    (op == SquareRoot && value < 0.0) || (op == Reciprocal && !IsValidDivision(value))
  }

  /** Every character operationFromChar recognises. */
  const OPERATOR_CHARS: set<char> := {'+', '-', 'x', 'X', '*', '\U{00D7}', '/', '\U{00F7}', '%'}

  /** operationFromChar: the operator character typed or shown on a button. */
  function OperationFromChar(c: char): (op: Operation)
    ensures op in {None, Add, Subtract, Multiply, Divide, Percent}
    ensures op == Add <==> c == '+'
    ensures op == Subtract <==> c == '-'
    ensures op == Multiply <==> c in {'x', 'X', '*', '\U{00D7}'}
    ensures op == Divide <==> c in {'/', '\U{00F7}'}
    ensures op == Percent <==> c == '%'
    ensures op == None <==> c !in OPERATOR_CHARS
  {
    if c == '+' then Add
    else if c == '-' then Subtract
    else if c == 'x' || c == 'X' || c == '*' || c == '\U{00D7}' then Multiply
    else if c == '/' || c == '\U{00F7}' then Divide
    else if c == '%' then Percent
    else None
  }

  /** operationToString: the glyph an operation is displayed with. */
  function OperationToString(op: Operation): (s: string)
    ensures s == "" <==> op == None
  {
    match op
    case Add => "+"
    case Subtract => "-"
    case Multiply => "\U{00D7}"
    case Divide => "\U{00F7}"
    case Percent => "%"
    case Negate => "\U{00B1}"
    case Square => "x\U{00B2}"
    case SquareRoot => "\U{221A}"
    case Reciprocal => "1/x"
    case None => ""
  }

  /** The glyph of every operation a character can name is that one character
      again, and reading it back gives the operation. */
  lemma CharRoundTrip(op: Operation)
    requires op in {Add, Subtract, Multiply, Divide, Percent}
    ensures |OperationToString(op)| == 1
    ensures OperationFromChar(OperationToString(op)[0]) == op
  {
  }

  /** Reading a character and displaying the operation gives back the
      character itself, except for the ASCII spellings of multiply and divide
      that display as the typographic signs. */
  lemma GlyphOfChar(c: char)
    ensures c !in OPERATOR_CHARS ==> OperationFromChar(c) == None && OperationToString(OperationFromChar(c)) == ""
    ensures c in {'+', '-', '%', '\U{00D7}', '\U{00F7}'} ==> OperationToString(OperationFromChar(c)) == [c]
  {
  }

  /** The four arithmetic operations compute what they name: subtracting
      undoes adding, dividing undoes multiplying by a nonzero factor. */
  lemma BinaryInverses(a: real, b: real)
    ensures BinaryOutcome(BinaryOutcome(a, b, Add).value, b, Subtract) == Succeeded(a)
    ensures b != 0.0 ==> BinaryOutcome(BinaryOutcome(a, b, Multiply).value, b, Divide) == Succeeded(a)
    ensures b != 0.0 ==> BinaryOutcome(a, b, Divide).value * b == a
  {
    if b != 0.0 {
      assert IsValidDivision(b);
      assert (a * b) / b == a;
      assert BinaryOutcome(a * b, b, Divide) == Succeeded((a * b) / b);
    }
  }

  /** The arithmetic of the unit tests. */
  lemma BinaryExamples()
    ensures BinaryOutcome(5.0, 3.0, Add) == Succeeded(8.0)
    ensures BinaryOutcome(10.0, 4.0, Subtract) == Succeeded(6.0)
    ensures BinaryOutcome(6.0, 7.0, Multiply) == Succeeded(42.0)
    ensures BinaryOutcome(15.0, 3.0, Divide) == Succeeded(5.0)
    ensures BinaryOutcome(10.0, 0.0, Divide) == Failed(DIVISION_BY_ZERO)
  {
  }

  /** Negation is an involution; the reciprocal of a nonzero value is one
      too; the percentage is a hundredth. */
  lemma UnaryInverses(v: real, sqrt: real -> real)
    ensures UnaryOutcome(Negate, UnaryOutcome(Negate, v, sqrt).value, sqrt) == Succeeded(v)
    ensures v != 0.0 ==> UnaryOutcome(Reciprocal, UnaryOutcome(Reciprocal, v, sqrt).value, sqrt) == Succeeded(v)
    ensures UnaryOutcome(Percent, v, sqrt).value * 100.0 == v
  {
    if v != 0.0 {
      var w := 1.0 / v;
      assert w != 0.0;
      assert 1.0 / w == v;
    }
  }

  /** A successful square root squares back to its argument. */
  lemma SquareOfRoot(v: real, sqrt: real -> real)
    requires IsSquareRoot(sqrt) && v >= 0.0
    ensures UnaryOutcome(SquareRoot, v, sqrt).success
    ensures UnaryOutcome(Square, UnaryOutcome(SquareRoot, v, sqrt).value, sqrt) == Succeeded(v)
  {
    assert sqrt(v) * sqrt(v) == v;
  }

  /** A non-negative number is determined by its square among the non-negative
      numbers. */
  lemma NonNegativeRootUnique(r: real, a: real)
    requires r >= 0.0 && a >= 0.0 && r * r == a * a
    ensures r == a
  {
    var d, t := r - a, r + a;
    assert d * t == 0.0;
    if a == 0.0 {
      assert r * r == 0.0;
    } else {
      assert t > 0.0;
      assert d == (d * t) / t;
    }
  }

  /** With any square root, sqrt(16) is 4 and sqrt(-4) fails. */
  lemma SquareRootExamples(sqrt: real -> real)
    requires IsSquareRoot(sqrt)
    ensures UnaryOutcome(SquareRoot, 16.0, sqrt) == Succeeded(4.0)
    ensures UnaryOutcome(SquareRoot, -4.0, sqrt) == Failed(NEGATIVE_SQUARE_ROOT)
    ensures UnaryOutcome(Reciprocal, 4.0, sqrt) == Succeeded(0.25)
    ensures UnaryOutcome(Reciprocal, 0.0, sqrt) == Failed(DIVISION_BY_ZERO)
  {
    NonNegativeRootUnique(sqrt(16.0), 4.0);
  }

  /** Every binary failure is one that moves the engine to Error; among the
      unary failures exactly the unknown operations do not. */
  lemma FailureAsymmetry(v: real, w: real, op: Operation, sqrt: real -> real)
    ensures UnaryEntersError(op, v) ==> !UnaryOutcome(op, v, sqrt).success
    ensures !UnaryOutcome(op, v, sqrt).success && !UnaryEntersError(op, v)
      ==> UnaryOutcome(op, v, sqrt) == Failed(UNKNOWN_UNARY_OPERATION)
    ensures !BinaryOutcome(v, w, op).success && op != Divide
      ==> BinaryOutcome(v, w, op) == Failed(UNKNOWN_OPERATION)
  {
  }

  class CalcHandler {
    var state: State
    var storedValue: real
    var operation: Operation
    var hasStoredValue: bool

    /** An operation is only ever recorded once an operand is stored:
        setOperation refuses without one, and clear resets both. */
    ghost predicate Valid()
      reads this
    {
      operation != None ==> hasStoredValue
    }

    /** The state a fresh engine, and an engine after clear(), is in. */
    ghost predicate Cleared()
      reads this
    {
      state == Idle && storedValue == 0.0 && operation == None && !hasStoredValue
    }

    constructor ()
      ensures Valid() && Cleared()
    {
      state := Idle;
      storedValue := 0.0;
      operation := None;
      hasStoredValue := false;
    }

    /** Records an operand; only Idle and ResultDisplayed move to OperandEntry. */
    method SetOperand(value: real)
      requires Valid()
      modifies this
      ensures Valid()
      ensures storedValue == value && hasStoredValue
      ensures state == if old(state) in {Idle, ResultDisplayed} then OperandEntry else old(state)
      ensures operation == old(operation)
    {
      storedValue := value;
      hasStoredValue := true;
      if state == Idle || state == ResultDisplayed {
        state := OperandEntry;
      }
    }

    /** Records an operation, but only once an operand is stored. */
    method SetOperation(op: Operation)
      requires Valid()
      modifies this
      ensures Valid()
      ensures old(hasStoredValue) ==> operation == op && state == OperatorSelected
      ensures !old(hasStoredValue) ==> operation == old(operation) && state == old(state)
      ensures storedValue == old(storedValue) && hasStoredValue == old(hasStoredValue)
    {
      if !hasStoredValue {
        return;
      }
      operation := op;
      state := OperatorSelected;
    }

    /** Fails unless an operand and an operation are stored; on success
        returns the stored operand and moves to ResultDisplayed. */
    method Calculate() returns (r: CalculationResult)
      requires Valid()
      modifies this
      ensures Valid()
      ensures var ready := old(hasStoredValue) && old(operation) != None;
        && r == (if ready then Succeeded(old(storedValue)) else Failed(INSUFFICIENT_DATA))
        && state == (if ready then ResultDisplayed else old(state))
      ensures WellTagged(r)
      ensures storedValue == old(storedValue) && operation == old(operation)
      ensures hasStoredValue == old(hasStoredValue)
    {
      if !hasStoredValue || operation == None {
        return Failed(INSUFFICIENT_DATA);
      }
      state := ResultDisplayed;
      return Succeeded(storedValue);
    }

    /** Evaluates a binary operation; a success is stored and displayed, a
        failure moves to Error. */
    method PerformBinaryOperation(operand1: real, operand2: real, op: Operation)
      returns (r: CalculationResult)
      requires Valid()
      modifies this
      ensures Valid()
      ensures r == BinaryOutcome(operand1, operand2, op)
      ensures storedValue == if r.success then r.value else old(storedValue)
      ensures state == if r.success then ResultDisplayed else Error
      ensures operation == old(operation) && hasStoredValue == old(hasStoredValue)
    {
      match op {
        case Add => r := Succeeded(operand1 + operand2);
        case Subtract => r := Succeeded(operand1 - operand2);
        case Multiply => r := Succeeded(operand1 * operand2);
        case Divide =>
          if !IsValidDivision(operand2) {
            r := Failed(DIVISION_BY_ZERO);
            state := Error;
            return;
          }
          r := Succeeded(operand1 / operand2);
        case _ =>
          r := Failed(UNKNOWN_OPERATION);
          state := Error;
          return;
      }
      storedValue := r.value;
      state := ResultDisplayed;
    }

    /** Evaluates a unary operation without touching the stored operand; a
        negative square root or a zero reciprocal moves to Error. */
    method ApplyUnaryOperation(op: Operation, value: real, sqrt: real -> real)
      returns (r: CalculationResult)
      requires Valid()
      modifies this
      ensures Valid()
      ensures r == UnaryOutcome(op, value, sqrt)
      ensures state == if UnaryEntersError(op, value) then Error else old(state)
      ensures storedValue == old(storedValue) && operation == old(operation)
      ensures hasStoredValue == old(hasStoredValue)
    {
      match op {
        case Percent => r := Succeeded(value * 0.01);
        case Negate => r := Succeeded(-value);
        case Square => r := Succeeded(value * value);
        case SquareRoot =>
          if value < 0.0 {
            r := Failed(NEGATIVE_SQUARE_ROOT);
            state := Error;
            return;
          }
          r := Succeeded(sqrt(value));
        case Reciprocal =>
          if !IsValidDivision(value) {
            r := Failed(DIVISION_BY_ZERO);
            state := Error;
            return;
          }
          r := Succeeded(1.0 / value);
        case _ =>
          r := Failed(UNKNOWN_UNARY_OPERATION);
          return;
      }
    }

    /** Back to the initial state, from any state. */
    method Clear()
      modifies this
      ensures Valid() && Cleared()
    {
      storedValue := 0.0;
      operation := None;
      hasStoredValue := false;
      state := Idle;
    }

    method Reset()
      modifies this
      ensures Valid() && Cleared()
    {
      Clear();
    }
  }

  /** The state sequence of a first calculation: enter 5, choose +, evaluate
      5 + 3. */
  method FirstCalculation() returns (afterOperand: State, afterOperator: State, afterResult: State, result: CalculationResult)
    ensures afterOperand == OperandEntry && afterOperator == OperatorSelected
    ensures afterResult == ResultDisplayed && result == Succeeded(8.0)
  {
    var handler := new CalcHandler();
    handler.SetOperand(5.0);
    afterOperand := handler.state;
    handler.SetOperation(Add);
    afterOperator := handler.state;
    result := handler.PerformBinaryOperation(5.0, 3.0, Add);
    afterResult := handler.state;
  }

  /** A division by zero leaves the engine in Error until it is cleared. */
  method DivisionByZeroThenClear() returns (failure: CalculationResult, inError: State, afterClear: State)
    ensures !failure.success && failure.value == 0.0 && inError == Error && afterClear == Idle
  {
    var handler := new CalcHandler();
    handler.SetOperand(10.0);
    handler.SetOperation(Divide);
    failure := handler.PerformBinaryOperation(10.0, 0.0, Divide);
    inError := handler.state;
    handler.Clear();
    afterClear := handler.state;
  }
}
