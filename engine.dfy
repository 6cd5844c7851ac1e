/**
 The calculator engine of ContentView.swift, one pure transition per key handler.

 A Swift `Double` is modelled as a `real`. Addition, subtraction, multiplication,
 division and the division by 100 of the percentage key are exact; everything
 the engine borrows from Foundation (`Double(_:)`, `formatResult`, `sqrt`, `pow`,
 `sin`, `cos`, `tan`, `log10`, `log` and `Double.pi`) is a field of a `Numerics`
 record, so that every property below holds whatever those functions compute.
 */
module Engine {
  import opened Wrappers

  /** `ContentView.CalculatorOperation`: five binary and seven unary operations. */
  datatype Operation =
    | Addition | Subtraction | Multiplication | Division | Power
    | SquareRoot | Percentage | Sine | Cosine | Tangent | Logarithm | NaturalLog

  /** The operations `calculate` evaluates; the others fall into its `default` branch. */
  predicate IsBinary(op: Operation) {
    op.Addition? || op.Subtraction? || op.Multiplication? || op.Division? || op.Power?
  }

  /** The sentinel written to the display on a domain error. */
  const ErrorText: string := "Error"

  /** What string interpolation of `Double.pi` and of `M_E` produces (shortest round-trip digits). */
  const PiText: string := "3.141592653589793"
  const EText: string := "2.718281828459045"

  /** The library functions the engine calls, left uninterpreted. */
  datatype Numerics = Numerics(
    parse: string -> Option<real>,   // Double(displayText)
    format: real -> string,          // formatResult: NumberFormatter, at most 8 fraction digits
    pi: real,                        // Double.pi, used by the degree-to-radian conversion
    sqrt: real -> real,
    pow: (real, real) -> real,
    sin: real -> real,
    cos: real -> real,
    tan: real -> real,
    log10: real -> real,
    ln: real -> real)
  {
    /** The only facts assumed of the library: the error sentinel is not a number,
        and a formatted number is neither the error sentinel nor empty. */
    ghost predicate Valid() {
      && parse(ErrorText) == None
      && forall x :: format(x) != ErrorText && format(x) != []
    }
  }

  /** The `@State` fields of the view that the engine reads and writes. */
  datatype State = State(
    display: string,           // displayText
    operation: Option<Operation>, // currentOperation
    previous: Option<real>,    // previousNumber
    replace: bool,             // shouldReplaceDisplay
    radians: bool)             // isInRadianMode

  /** The state a freshly created view starts in. */
  const Initial: State := State("0", None, None, true, true)

  /** What the arithmetic part of a handler yields before the display is written. */
  datatype Outcome = Value(x: real) | DomainError | Ignored

  /** The angle handed to `sin`, `cos` and `tan`: the value itself in radian mode,
      `value * .pi / 180` in degree mode. */
  function ToRadians(n: Numerics, v: real, radians: bool): real {
    if radians then v else v * n.pi / 180.0
  }

  /** The inputs on which a unary operation reports an error instead of a value. */
  predicate UnaryDomainError(op: Operation, v: real) {
    || (op == SquareRoot && v < 0.0)
    || ((op == Logarithm || op == NaturalLog) && v <= 0.0)
  }

  /** The `switch` of `performScientificOperation`. */
  function Unary(n: Numerics, op: Operation, v: real, radians: bool): (r: Outcome)
    ensures r.DomainError? <==> UnaryDomainError(op, v)
    ensures r.Ignored? <==> IsBinary(op)
    ensures op == Percentage ==> r == Value(v / 100.0)
    ensures op == SquareRoot && v >= 0.0 ==> r == Value(n.sqrt(v))
    ensures op == Logarithm && v > 0.0 ==> r == Value(n.log10(v))
    ensures op == NaturalLog && v > 0.0 ==> r == Value(n.ln(v))
    ensures op == Sine ==> r == Value(n.sin(ToRadians(n, v, radians)))
    ensures op == Cosine ==> r == Value(n.cos(ToRadians(n, v, radians)))
    ensures op == Tangent ==> r == Value(n.tan(ToRadians(n, v, radians)))
  {
    match op
    case Percentage => Value(v / 100.0)
    case SquareRoot => if v >= 0.0 then Value(n.sqrt(v)) else DomainError
    case Sine => Value(n.sin(ToRadians(n, v, radians)))
    case Cosine => Value(n.cos(ToRadians(n, v, radians)))
    case Tangent => Value(n.tan(ToRadians(n, v, radians)))
    case Logarithm => if v > 0.0 then Value(n.log10(v)) else DomainError
    case NaturalLog => if v > 0.0 then Value(n.ln(v)) else DomainError
    case _ => Ignored
  }

  /** The `switch` of `calculate`: `previous op current`. */
  function Binary(n: Numerics, op: Operation, previous: real, current: real): (r: Outcome)
    ensures r.DomainError? <==> op == Division && current == 0.0
    ensures r.Ignored? <==> !IsBinary(op)
    ensures op == Addition ==> r == Value(previous + current)
    ensures op == Subtraction ==> r == Value(previous - current)
    ensures op == Multiplication ==> r == Value(previous * current)
    ensures op == Division && current != 0.0 ==> r == Value(previous / current)
    ensures op == Power ==> r == Value(n.pow(previous, current))
  {
    match op
    case Addition => Value(previous + current)
    case Subtraction => Value(previous - current)
    case Multiplication => Value(previous * current)
    case Division => if current != 0.0 then Value(previous / current) else DomainError
    case Power => Value(n.pow(previous, current))
    case _ => Ignored
  }

  /** `appendDigit`: start a new number, or extend the one being typed. */
  function AppendDigit(s: State, digit: char): (r: State)
    ensures r.operation == s.operation && r.previous == s.previous && r.radians == s.radians
    ensures !r.replace
    ensures r.display == [digit] || r.display == s.display + [digit]
    ensures r.display == [digit] <==> s.replace || s.display == "0" || s.display == []
  {
    if s.replace || s.display == "0" then
      s.(display := [digit], replace := false)
    else
      s.(display := s.display + [digit])
  }

  /** `appendDecimal`: start "0.", or add a point unless there is one already. */
  function AppendDecimal(s: State): (r: State)
    ensures r.operation == s.operation && r.previous == s.previous && r.radians == s.radians
    ensures !r.replace && '.' in r.display
    ensures s.replace ==> r.display == "0."
    ensures !s.replace && '.' in s.display ==> r == s
    ensures !s.replace && '.' !in s.display ==> r == s.(display := s.display + ".")
    ensures !s.replace ==> multiset(r.display)['.'] <= multiset(s.display)['.'] + 1
  {
    if s.replace then
      s.(display := "0.", replace := false)
    else if '.' !in s.display then
      s.(display := s.display + ".")
    else
      s
  }

  /** `clear` ("AC"): back to the initial state, except that the angle mode is kept. */
  function Clear(s: State): (r: State)
    ensures r == Initial.(radians := s.radians)
    ensures s.radians ==> r == Initial
  {
    s.(display := "0", operation := None, previous := None, replace := true)
  }

  /** `negateNumber` ("+/-"): a no-op unless the display parses; never touches the replace flag. */
  function Negate(n: Numerics, s: State): (r: State)
    ensures r.operation == s.operation && r.previous == s.previous
    ensures r.replace == s.replace && r.radians == s.radians
    ensures n.parse(s.display).None? ==> r == s
    ensures n.parse(s.display).Some? ==> r.display == n.format(-n.parse(s.display).value)
  {
    match n.parse(s.display)
    case Some(v) => s.(display := n.format(-v))
    case None => s
  }

  /** `value * value`. */
  function Squared(v: real): real {
    v * v
  }

  /** `calculateSquare` ("x²"): computed at once, the next digit starts a new number. */
  function Square(n: Numerics, s: State): (r: State)
    ensures r.operation == s.operation && r.previous == s.previous && r.radians == s.radians
    ensures n.parse(s.display).None? ==> r == s
    ensures n.parse(s.display).Some? ==>
      r.display == n.format(Squared(n.parse(s.display).value)) && r.replace
  {
    match n.parse(s.display)
    case Some(v) => s.(display := n.format(Squared(v)), replace := true)
    case None => s
  }

  /** The "1/x" button: a no-op when the display does not parse or shows zero. */
  function Reciprocal(n: Numerics, s: State): (r: State)
    ensures r.operation == s.operation && r.previous == s.previous && r.radians == s.radians
    ensures n.parse(s.display).None? || n.parse(s.display) == Some(0.0) ==> r == s
    ensures n.parse(s.display).Some? && n.parse(s.display) != Some(0.0) ==>
      var v := n.parse(s.display).value; r.display == n.format(1.0 / v) && r.replace
  {
    match n.parse(s.display)
    case Some(v) => if v != 0.0 then s.(display := n.format(1.0 / v), replace := true) else s
    case None => s
  }

  /** The "π" button: shows the interpolated `Double.pi` and starts a new number. */
  function PressPi(s: State): (r: State)
    ensures r.display == PiText && r.replace
    ensures r.operation == s.operation && r.previous == s.previous && r.radians == s.radians
  {
    s.(display := PiText, replace := true)
  }

  /** The "e" button: shows the interpolated `M_E` and starts a new number. */
  function PressE(s: State): (r: State)
    ensures r.display == EText && r.replace
    ensures r.operation == s.operation && r.previous == s.previous && r.radians == s.radians
  {
    s.(display := EText, replace := true)
  }

  /** The "RAD"/"DEG" button: flips the angle mode and nothing else. */
  function ToggleRadianMode(s: State): (r: State)
    ensures r.radians != s.radians
    ensures r.(radians := s.radians) == s
  {
    s.(radians := !s.radians)
  }

  /** `setOperation`: capture the display as the left operand and remember the operator.
      A pending operator is overwritten, never evaluated. */
  function SetOperation(n: Numerics, s: State, op: Operation): (r: State)
    ensures r.display == s.display && r.radians == s.radians
    ensures n.parse(s.display).None? ==> r == s
    ensures n.parse(s.display).Some? ==>
      r.previous == n.parse(s.display) && r.operation == Some(op) && r.replace
  {
    match n.parse(s.display)
    case Some(v) => s.(previous := Some(v), operation := Some(op), replace := true)
    case None => s
  }

  /** `performScientificOperation`: on a domain error only the display changes. */
  function Scientific(n: Numerics, s: State, op: Operation): (r: State)
    ensures r.operation == s.operation && r.previous == s.previous && r.radians == s.radians
    ensures n.parse(s.display).None? || IsBinary(op) ==> r == s
    ensures r == s || r == s.(display := ErrorText) || r.replace
    ensures n.parse(s.display).Some? ==>
      var out := Unary(n, op, n.parse(s.display).value, s.radians);
      out.Value? ==> r == s.(display := n.format(out.x), replace := true)
  {
    match n.parse(s.display)
    case None => s
    case Some(v) =>
      match Unary(n, op, v, s.radians)
      case Value(x) => s.(display := n.format(x), replace := true)
      case DomainError => s.(display := ErrorText)
      case Ignored => s
  }

  /** The guard of `calculate`: an operator, a left operand and a parseable display. */
  predicate ReadyToCalculate(n: Numerics, s: State) {
    s.operation.Some? && s.previous.Some? && n.parse(s.display).Some?
  }

  /** `calculate` ("="): evaluate the pending operation against the display. */
  function Calculate(n: Numerics, s: State): (r: State)
    ensures r.radians == s.radians && r.previous == s.previous
    ensures !ReadyToCalculate(n, s) ==> r == s
    ensures r == s || r == s.(display := ErrorText) || (r.operation == None && r.replace)
    ensures ReadyToCalculate(n, s) && IsBinary(s.operation.value) && s.operation.value != Division ==>
      r.operation == None && r.replace
    ensures ReadyToCalculate(n, s) ==>
      var out := Binary(n, s.operation.value, s.previous.value, n.parse(s.display).value);
      out.Value? ==> r == s.(display := n.format(out.x), operation := None, replace := true)
  {
    if !ReadyToCalculate(n, s) then s
    else
      match Binary(n, s.operation.value, s.previous.value, n.parse(s.display).value)
      case Value(x) => s.(display := n.format(x), operation := None, replace := true)
      case DomainError => s.(display := ErrorText)
      case Ignored => s
  }

  /** The buttons of the keypad and of the scientific panel. */
  datatype Key =
    | DigitKey(digit: char)       // "0" ... "9"
    | PointKey                    // "."
    | ClearKey                    // "AC"
    | SignKey                     // "+/-"
    | PercentKey                  // "%"
    | DivideKey | MultiplyKey | SubtractKey | AddKey | PowerKey   // "÷" "×" "-" "+" "xʸ"
    | EqualsKey                   // "="
    | AngleModeKey                // "RAD" / "DEG"
    | SineKey | CosineKey | TangentKey | RootKey | LogKey | LnKey // "sin" "cos" "tan" "√" "log" "ln"
    | PiKey | EKey | SquareKey | ReciprocalKey                  // "π" "e" "x²" "1/x"
  {
    /** The keypad only offers the ten decimal digits. */
    predicate Valid() {
      DigitKey? ==> '0' <= digit <= '9'
    }

    /** The operator keys, which call `setOperation`. */
    predicate IsOperator() {
      DivideKey? || MultiplyKey? || SubtractKey? || AddKey? || PowerKey?
    }
  }

  /** The action of each button of `body`. */
  function Press(n: Numerics, s: State, key: Key): (r: State)
    ensures r.radians != s.radians <==> key == AngleModeKey
    ensures r.previous != s.previous ==> key.IsOperator() || key == ClearKey
    ensures r.operation != s.operation ==> key.IsOperator() || key == ClearKey || key == EqualsKey
  {
    match key
    case DigitKey(d) => AppendDigit(s, d)
    case PointKey => AppendDecimal(s)
    case ClearKey => Clear(s)
    case SignKey => Negate(n, s)
    case PercentKey => Scientific(n, s, Percentage)
    case DivideKey => SetOperation(n, s, Division)
    case MultiplyKey => SetOperation(n, s, Multiplication)
    case SubtractKey => SetOperation(n, s, Subtraction)
    case AddKey => SetOperation(n, s, Addition)
    case PowerKey => SetOperation(n, s, Power)
    case EqualsKey => Calculate(n, s)
    case AngleModeKey => ToggleRadianMode(s)
    case SineKey => Scientific(n, s, Sine)
    case CosineKey => Scientific(n, s, Cosine)
    case TangentKey => Scientific(n, s, Tangent)
    case RootKey => Scientific(n, s, SquareRoot)
    case LogKey => Scientific(n, s, Logarithm)
    case LnKey => Scientific(n, s, NaturalLog)
    case PiKey => PressPi(s)
    case EKey => PressE(s)
    case SquareKey => Square(n, s)
    case ReciprocalKey => Reciprocal(n, s)
  }

  /** A sequence of button presses, handled one after the other. */
  function Run(n: Numerics, s: State, keys: seq<Key>): (r: State)
    ensures AngleModeKey !in keys ==> r.radians == s.radians
    ensures (forall i :: 0 <= i < |keys| ==> !keys[i].IsOperator() && keys[i] != ClearKey) ==>
      r.previous == s.previous
    decreases |keys|
  {
    if keys == [] then s else Run(n, Press(n, s, keys[0]), keys[1..])
  }
}
