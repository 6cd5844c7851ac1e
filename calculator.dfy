/**
 The view's state and its key handlers, as the source runs them: each handler updates
 the `@State` fields in place. Every method is proved to make exactly the transition the
 pure engine prescribes, so the properties proved about the engine hold of the view.
 */
module CalculatorView {
  import opened Wrappers
  import Engine

  class ContentView {
    var displayText: string
    var currentOperation: Option<Engine.Operation>
    var previousNumber: Option<real>
    var shouldReplaceDisplay: bool
    var isInRadianMode: bool
    /** The library functions the handlers call. */
    const numerics: Engine.Numerics

    /** The engine state the fields hold. */
    function State(): Engine.State
      reads this
    {
      Engine.State(displayText, currentOperation, previousNumber, shouldReplaceDisplay, isInRadianMode)
    }

    /** The initial values of the `@State` declarations. */
    constructor (numerics: Engine.Numerics)
      ensures this.numerics == numerics
      ensures State() == Engine.Initial
    {
      this.numerics := numerics;
      displayText := "0";
      currentOperation := None;
      previousNumber := None;
      shouldReplaceDisplay := true;
      isInRadianMode := true;
    }

    method AppendDigit(digit: char)
      modifies this
      ensures State() == Engine.AppendDigit(old(State()), digit)
    {
      if shouldReplaceDisplay || displayText == "0" {
        displayText := [digit];
        shouldReplaceDisplay := false;
      } else {
        displayText := displayText + [digit];
      }
    }

    method AppendDecimal()
      modifies this
      ensures State() == Engine.AppendDecimal(old(State()))
    {
      if shouldReplaceDisplay {
        displayText := "0.";
        shouldReplaceDisplay := false;
      } else if '.' !in displayText {
        displayText := displayText + ".";
      }
    }

    method Clear()
      modifies this
      ensures State() == Engine.Clear(old(State()))
    {
      displayText := "0";
      currentOperation := None;
      previousNumber := None;
      shouldReplaceDisplay := true;
    }

    method NegateNumber()
      modifies this
      ensures State() == Engine.Negate(numerics, old(State()))
    {
      var parsed := numerics.parse(displayText);
      if parsed.Some? {
        displayText := numerics.format(-parsed.value);
      }
    }

    method CalculateSquare()
      modifies this
      ensures State() == Engine.Square(numerics, old(State()))
    {
      var parsed := numerics.parse(displayText);
      if parsed.Some? {
        var value := parsed.value;
        displayText := numerics.format(Engine.Squared(value));
        shouldReplaceDisplay := true;
      }
    }

    method SetOperation(operation: Engine.Operation)
      modifies this
      ensures State() == Engine.SetOperation(numerics, old(State()), operation)
    {
      var parsed := numerics.parse(displayText);
      if parsed.Some? {
        previousNumber := Some(parsed.value);
        currentOperation := Some(operation);
        shouldReplaceDisplay := true;
      }
    }

    method PerformScientificOperation(operation: Engine.Operation)
      modifies this
      ensures State() == Engine.Scientific(numerics, old(State()), operation)
    {
      var parsed := numerics.parse(displayText);
      if parsed.None? {
        return;
      }
      var value := parsed.value;
      var result: real := 0.0;
      match operation {
        case Percentage =>
          result := value / 100.0;
        case SquareRoot =>
          if value >= 0.0 {
            result := numerics.sqrt(value);
          } else {
            displayText := Engine.ErrorText;
            return;
          }
        case Sine =>
          var radValue := if isInRadianMode then value else value * numerics.pi / 180.0;
          assert radValue == Engine.ToRadians(numerics, value, isInRadianMode);
          result := numerics.sin(radValue);
        case Cosine =>
          var radValue := if isInRadianMode then value else value * numerics.pi / 180.0;
          assert radValue == Engine.ToRadians(numerics, value, isInRadianMode);
          result := numerics.cos(radValue);
        case Tangent =>
          var radValue := if isInRadianMode then value else value * numerics.pi / 180.0;
          assert radValue == Engine.ToRadians(numerics, value, isInRadianMode);
          result := numerics.tan(radValue);
        case Logarithm =>
          if value > 0.0 {
            result := numerics.log10(value);
          } else {
            displayText := Engine.ErrorText;
            return;
          }
        case NaturalLog =>
          if value > 0.0 {
            result := numerics.ln(value);
          } else {
            displayText := Engine.ErrorText;
            return;
          }
        case _ =>
          return;
      }
      assert Engine.Unary(numerics, operation, value, isInRadianMode) == Engine.Value(result);
      displayText := numerics.format(result);
      shouldReplaceDisplay := true;
    }

    method Calculate()
      modifies this
      ensures State() == Engine.Calculate(numerics, old(State()))
    {
      var current := numerics.parse(displayText);
      if currentOperation.None? || previousNumber.None? || current.None? {
        return;
      }
      var previous := previousNumber.value;
      var result: real := 0.0;
      match currentOperation.value {
        case Addition =>
          result := previous + current.value;
        case Subtraction =>
          result := previous - current.value;
        case Multiplication =>
          result := previous * current.value;
        case Division =>
          if current.value != 0.0 {
            result := previous / current.value;
          } else {
            displayText := Engine.ErrorText;
            return;
          }
        case Power =>
          result := numerics.pow(previous, current.value);
        case _ =>
          return;
      }
      assert Engine.Binary(numerics, currentOperation.value, previous, current.value) == Engine.Value(result);
      displayText := numerics.format(result);
      currentOperation := None;
      shouldReplaceDisplay := true;
    }

    /** The "π" button. */
    method PressPi()
      modifies this
      ensures State() == Engine.PressPi(old(State()))
    {
      displayText := Engine.PiText;
      shouldReplaceDisplay := true;
    }

    /** The "e" button. */
    method PressE()
      modifies this
      ensures State() == Engine.PressE(old(State()))
    {
      displayText := Engine.EText;
      shouldReplaceDisplay := true;
    }

    /** The "1/x" button. */
    method Reciprocal()
      modifies this
      ensures State() == Engine.Reciprocal(numerics, old(State()))
    {
      var parsed := numerics.parse(displayText);
      if parsed.Some? && parsed.value != 0.0 {
        displayText := numerics.format(1.0 / parsed.value);
        shouldReplaceDisplay := true;
      }
    }

    /** The "RAD"/"DEG" button. */
    method ToggleRadianMode()
      modifies this
      ensures State() == Engine.ToggleRadianMode(old(State()))
    {
      isInRadianMode := !isInRadianMode;
    }

    /** A button of the keypad or of the scientific panel, wired to its handler. */
    method Press(key: Engine.Key)
      modifies this
      ensures State() == Engine.Press(numerics, old(State()), key)
    {
      match key {
        case DigitKey(d) => AppendDigit(d);
        case PointKey => AppendDecimal();
        case ClearKey => Clear();
        case SignKey => NegateNumber();
        case PercentKey => PerformScientificOperation(Engine.Percentage);
        case DivideKey => SetOperation(Engine.Division);
        case MultiplyKey => SetOperation(Engine.Multiplication);
        case SubtractKey => SetOperation(Engine.Subtraction);
        case AddKey => SetOperation(Engine.Addition);
        case PowerKey => SetOperation(Engine.Power);
        case EqualsKey => Calculate();
        case AngleModeKey => ToggleRadianMode();
        case SineKey => PerformScientificOperation(Engine.Sine);
        case CosineKey => PerformScientificOperation(Engine.Cosine);
        case TangentKey => PerformScientificOperation(Engine.Tangent);
        case RootKey => PerformScientificOperation(Engine.SquareRoot);
        case LogKey => PerformScientificOperation(Engine.Logarithm);
        case LnKey => PerformScientificOperation(Engine.NaturalLog);
        case PiKey => PressPi();
        case EKey => PressE();
        case SquareKey => CalculateSquare();
        case ReciprocalKey => Reciprocal();
      }
    }
  }
}
