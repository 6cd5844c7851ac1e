/** What the calculator engine guarantees across handlers and sequences of key presses. */
module EngineProperties {
  import opened Wrappers
  import opened Engine

  /** Pressing "AC" twice is the same as pressing it once. */
  lemma ClearIsIdempotent(s: State)
    ensures Clear(Clear(s)) == Clear(s)
  {
  }

  /** A second operator overwrites the pending one; nothing is evaluated in between. */
  lemma SecondOperatorOverwrites(n: Numerics, s: State, first: Operation, second: Operation)
    ensures SetOperation(n, SetOperation(n, s, first), second) == SetOperation(n, s, second)
  {
  }

  /** "=" pressed twice with nothing in between: the second press does nothing, whether the
      first one produced a result, showed the error sentinel or did nothing. */
  lemma CalculateIsIdempotent(n: Numerics, s: State)
    requires n.Valid()
    ensures Calculate(n, Calculate(n, s)) == Calculate(n, s)
  {
  }

  /** A domain error in a unary operation writes the sentinel and changes nothing else:
      not the replace flag, not the pending operation, not the left operand. */
  lemma ScientificDomainError(n: Numerics, s: State, op: Operation)
    requires n.parse(s.display).Some? && UnaryDomainError(op, n.parse(s.display).value)
    ensures Scientific(n, s, op) == s.(display := ErrorText)
  {
  }

  /** Dividing by zero writes the sentinel and changes nothing else: the division stays
      pending and the left operand stays captured. */
  lemma DivisionByZero(n: Numerics, s: State)
    requires s.operation == Some(Division) && s.previous.Some? && n.parse(s.display) == Some(0.0)
    ensures Calculate(n, s) == s.(display := ErrorText)
  {
  }

  /** A ready division by a non-zero divisor shows the formatted quotient, clears the pending
      operation, keeps the left operand and starts a new number. */
  lemma DivisionResult(n: Numerics, s: State, divisor: real)
    requires s.operation == Some(Division) && s.previous.Some?
    requires n.parse(s.display) == Some(divisor) && divisor != 0.0
    ensures Calculate(n, s) ==
      s.(display := n.format(s.previous.value / divisor), operation := None, replace := true)
  {
  }

  /** The trigonometric keys read the display as radians in radian mode and as degrees
      (converted by `value * .pi / 180`) in degree mode, and show the formatted result. */
  lemma TrigonometryAngle(n: Numerics, s: State, v: real)
    requires n.parse(s.display) == Some(v)
    ensures s.radians ==> Scientific(n, s, Sine) == s.(display := n.format(n.sin(v)), replace := true)
    ensures !s.radians ==>
      Scientific(n, s, Sine) == s.(display := n.format(n.sin(v * n.pi / 180.0)), replace := true)
    ensures !s.radians ==>
      Scientific(n, s, Cosine) == s.(display := n.format(n.cos(v * n.pi / 180.0)), replace := true)
    ensures !s.radians ==>
      Scientific(n, s, Tangent) == s.(display := n.format(n.tan(v * n.pi / 180.0)), replace := true)
  {
    if !s.radians {
      var angle := v * n.pi / 180.0;
      assert ToRadians(n, v, false) == angle;
      assert Unary(n, Sine, v, false) == Value(n.sin(angle));
      assert Unary(n, Cosine, v, false) == Value(n.cos(angle));
      assert Unary(n, Tangent, v, false) == Value(n.tan(angle));
    }
  }

  /** The sentinel appears after a unary operation exactly when the operand is out of domain
      (or when it was already shown). */
  lemma ScientificErrorIff(n: Numerics, s: State, op: Operation)
    requires n.Valid()
    ensures Scientific(n, s, op).display == ErrorText <==>
      s.display == ErrorText ||
      (n.parse(s.display).Some? && UnaryDomainError(op, n.parse(s.display).value))
  {
  }

  /** The sentinel appears after "=" exactly when a ready division has a zero divisor
      (or when it was already shown). */
  lemma CalculateErrorIff(n: Numerics, s: State)
    requires n.Valid()
    ensures Calculate(n, s).display == ErrorText <==>
      s.display == ErrorText ||
      (ReadyToCalculate(n, s) && s.operation.value == Division && n.parse(s.display).value == 0.0)
  {
  }

  /** While the sentinel is shown, every handler guarded by a parse of the display does nothing. */
  lemma ErrorDisablesGuardedHandlers(n: Numerics, s: State)
    requires n.Valid() && s.display == ErrorText
    ensures Negate(n, s) == s && Square(n, s) == s && Reciprocal(n, s) == s && Calculate(n, s) == s
    ensures forall op :: SetOperation(n, s, op) == s && Scientific(n, s, op) == s
  {
  }

  /** Outside the trigonometric operations, the unary `switch` ignores the angle mode. */
  lemma UnaryIgnoresAngleMode(n: Numerics, op: Operation, v: real, radians: bool)
    requires op != Sine && op != Cosine && op != Tangent
    ensures Unary(n, op, v, radians) == Unary(n, op, v, !radians)
  {
  }

  /** Only the "RAD"/"DEG" button and the three trigonometric buttons depend on the angle mode. */
  lemma AngleModeOnlyAffectsTrigonometry(n: Numerics, s: State, key: Key, radians: bool)
    requires key != SineKey && key != CosineKey && key != TangentKey && key != AngleModeKey
    ensures Press(n, s.(radians := radians), key) == Press(n, s, key).(radians := radians)
  {
    if key.IsOperator() || key == EqualsKey {
      OperatorKeysIgnoreAngleMode(n, s, key, radians);
    } else if key == PercentKey || key == RootKey || key == LogKey || key == LnKey {
      match key
      case PercentKey => ScientificIgnoresAngleMode(n, s, Percentage, radians);
      case RootKey => ScientificIgnoresAngleMode(n, s, SquareRoot, radians);
      case LogKey => ScientificIgnoresAngleMode(n, s, Logarithm, radians);
      case LnKey => ScientificIgnoresAngleMode(n, s, NaturalLog, radians);
    } else {
      EntryKeysIgnoreAngleMode(n, s, key, radians);
    }
  }

  lemma OperatorKeysIgnoreAngleMode(n: Numerics, s: State, key: Key, radians: bool)
    requires key.IsOperator() || key == EqualsKey
    ensures Press(n, s.(radians := radians), key) == Press(n, s, key).(radians := radians)
  {
    match key
    case AddKey =>
    case SubtractKey =>
    case MultiplyKey =>
    case DivideKey =>
    case PowerKey =>
    case EqualsKey =>
  }

  lemma EntryKeysIgnoreAngleMode(n: Numerics, s: State, key: Key, radians: bool)
    requires key.DigitKey? || key in {PointKey, ClearKey, SignKey, PiKey, EKey, SquareKey, ReciprocalKey}
    ensures Press(n, s.(radians := radians), key) == Press(n, s, key).(radians := radians)
  {
    match key
    case DigitKey(_) =>
    case PointKey =>
    case ClearKey =>
    case SignKey =>
    case PiKey =>
    case EKey =>
    case SquareKey => SquareIgnoresAngleMode(n, s, radians);
    case ReciprocalKey =>
  }

  lemma SquareIgnoresAngleMode(n: Numerics, s: State, radians: bool)
    ensures Square(n, s.(radians := radians)) == Square(n, s).(radians := radians)
  {
    var t := s.(radians := radians);
    match n.parse(s.display)
    case None =>
    case Some(v) =>
      assert Square(n, s) == s.(display := n.format(Squared(v)), replace := true);
      assert Square(n, t) == t.(display := n.format(Squared(v)), replace := true);
  }

  lemma ScientificIgnoresAngleMode(n: Numerics, s: State, op: Operation, radians: bool)
    requires op != Sine && op != Cosine && op != Tangent
    ensures Scientific(n, s.(radians := radians), op) == Scientific(n, s, op).(radians := radians)
  {
    if n.parse(s.display).Some? {
      UnaryIgnoresAngleMode(n, op, n.parse(s.display).value, radians);
    }
  }

  /** The key presses that type the given characters. */
  function DigitKeys(ds: string): (keys: seq<Key>)
    ensures |keys| == |ds|
    ensures forall i :: 0 <= i < |ds| ==> keys[i] == DigitKey(ds[i])
  {
    if ds == [] then [] else [DigitKey(ds[0])] + DigitKeys(ds[1..])
  }

  function WithoutLeadingZeros(ds: string): (r: string)
    ensures r == [] || r[0] != '0'
    ensures |r| <= |ds| && r == ds[|ds| - |r|..]
  {
    if ds != [] && ds[0] == '0' then WithoutLeadingZeros(ds[1..]) else ds
  }

  /** What the display shows after typing `ds` into a fresh number: the digits with their
      leading zeros suppressed, or "0" when they are all zeros. */
  function TypedNumber(ds: string): string {
    var t := WithoutLeadingZeros(ds);
    if t == [] then "0" else t
  }

  lemma RunFirstDigit(n: Numerics, s: State, ds: string)
    requires ds != []
    ensures Run(n, s, DigitKeys(ds)) == Run(n, AppendDigit(s, ds[0]), DigitKeys(ds[1..]))
  {
    var keys := DigitKeys(ds);
    assert keys[0] == DigitKey(ds[0]) && keys[1..] == DigitKeys(ds[1..]);
    assert Press(n, s, keys[0]) == AppendDigit(s, ds[0]);
  }

  /** Typing onto a number that is being entered (and is not "0") appends, keystroke by keystroke. */
  lemma {:induction false} TypingExtends(n: Numerics, s: State, ds: string)
    requires !s.replace && s.display != "0" && s.display != []
    ensures Run(n, s, DigitKeys(ds)) == s.(display := s.display + ds)
    decreases |ds|
  {
    if ds != [] {
      var s1 := AppendDigit(s, ds[0]);
      assert s1 == s.(display := s.display + [ds[0]]);
      RunFirstDigit(n, s, ds);
      TypingExtends(n, s1, ds[1..]);
      assert s.display + [ds[0]] + ds[1..] == s.display + ds;
    }
  }

  /** Typing digits when a new number is due (after "AC", an operator, "=", or at start-up)
      shows them with leading zeros suppressed; nothing else but the replace flag changes. */
  lemma {:induction false} TypingNumber(n: Numerics, s: State, ds: string)
    requires s.replace || s.display == "0"
    requires ds != []
    ensures Run(n, s, DigitKeys(ds)) == s.(display := TypedNumber(ds), replace := false)
    decreases |ds|
  {
    var s1 := AppendDigit(s, ds[0]);
    assert s1 == s.(display := [ds[0]], replace := false);
    RunFirstDigit(n, s, ds);
    if ds[0] == '0' {
      if ds[1..] != [] {
        TypingNumber(n, s1, ds[1..]);
      }
    } else {
      TypingExtends(n, s1, ds[1..]);
      assert [ds[0]] + ds[1..] == ds;
    }
  }

  /** The number of decimal points shown. */
  function Points(t: string): nat {
    multiset(t)['.']
  }

  /** A key that types part of a number: a decimal digit or the point. */
  predicate IsNumberKey(key: Key) {
    (key.DigitKey? && key.Valid()) || key == PointKey
  }

  /** Typing digits and points never puts a second point into the number being entered. */
  lemma {:induction false} AtMostOnePoint(n: Numerics, s: State, keys: seq<Key>)
    requires forall i :: 0 <= i < |keys| ==> IsNumberKey(keys[i])
    requires Points(s.display) <= 1 || (s.replace && keys != [])
    ensures Points(Run(n, s, keys).display) <= 1
    decreases |keys|
  {
    if keys != [] {
      var s1 := Press(n, s, keys[0]);
      assert IsNumberKey(keys[0]);
      if keys[0] == PointKey {
        if s.replace {
          assert s1.display == "0.";
        } else if '.' !in s.display {
          assert s1.display == s.display + ".";
        }
      } else {
        var d := keys[0].digit;
        if s.replace || s.display == "0" {
          assert s1.display == [d];
        } else {
          assert s1.display == s.display + [d];
        }
      }
      AtMostOnePoint(n, s1, keys[1..]);
    }
  }

  /** "1 + 2 =" shows the formatted 3, clears the operation and keeps 1 as the left operand. */
  lemma OnePlusTwo(n: Numerics)
    requires n.parse("1") == Some(1.0) && n.parse("2") == Some(2.0)
    ensures Run(n, Initial, [DigitKey('1'), AddKey, DigitKey('2'), EqualsKey])
         == State(n.format(3.0), None, Some(1.0), true, true)
  {
    var s1 := Press(n, Initial, DigitKey('1'));
    var s2 := Press(n, s1, AddKey);
    var s3 := Press(n, s2, DigitKey('2'));
    assert s3 == State("2", Some(Addition), Some(1.0), false, true);
    var s4 := Press(n, s3, EqualsKey);
    assert Run(n, Initial, [DigitKey('1'), AddKey, DigitKey('2'), EqualsKey]) == s4;
  }

  /** "3 x²" shows the formatted 9 at once; no "=" is involved. */
  lemma ThreeSquared(n: Numerics)
    requires n.parse("3") == Some(3.0)
    ensures Run(n, Initial, [DigitKey('3'), SquareKey]) == State(n.format(9.0), None, None, true, true)
  {
    var s1 := Press(n, Initial, DigitKey('3'));
    assert s1 == State("3", None, None, false, true);
    assert Run(n, Initial, [DigitKey('3'), SquareKey]) == Press(n, s1, SquareKey);
  }

  /** "1 ÷ 0 =" shows the sentinel but leaves the replace flag down, so a following "5"
      is appended to it: the display reads "Error5". */
  lemma DivideByZeroThenDigit(n: Numerics)
    requires n.parse("1") == Some(1.0) && n.parse("0") == Some(0.0)
    ensures Run(n, Initial, [DigitKey('1'), DivideKey, DigitKey('0'), EqualsKey])
         == State(ErrorText, Some(Division), Some(1.0), false, true)
    ensures Run(n, Initial, [DigitKey('1'), DivideKey, DigitKey('0'), EqualsKey, DigitKey('5')]).display
         == "Error5"
  {
    var s1 := Press(n, Initial, DigitKey('1'));
    var s2 := Press(n, s1, DivideKey);
    var s3 := Press(n, s2, DigitKey('0'));
    assert s3 == State("0", Some(Division), Some(1.0), false, true);
    var s4 := Press(n, s3, EqualsKey);
    assert s4 == State(ErrorText, Some(Division), Some(1.0), false, true);
    var s5 := Press(n, s4, DigitKey('5'));
    assert s5.display == "Error5";
    assert Run(n, Initial, [DigitKey('1'), DivideKey, DigitKey('0'), EqualsKey]) == s4;
    assert Run(n, Initial, [DigitKey('1'), DivideKey, DigitKey('0'), EqualsKey, DigitKey('5')]) == s5;
  }

  /** After "1 ÷ 0 =", the stale division is still pending: "π =" divides 1 by π. */
  lemma StaleOperationAfterError(n: Numerics, p: real)
    requires n.parse("1") == Some(1.0) && n.parse("0") == Some(0.0)
    requires n.parse(PiText) == Some(p) && p != 0.0
    ensures Run(n, Initial, [DigitKey('1'), DivideKey, DigitKey('0'), EqualsKey, PiKey, EqualsKey])
         == State(n.format(1.0 / p), None, Some(1.0), true, true)
  {
    var s4 := State(ErrorText, Some(Division), Some(1.0), false, true);
    DivideByZeroThenDigit(n);
    var s5 := Press(n, s4, PiKey);
    assert s5 == State(PiText, Some(Division), Some(1.0), true, true);
    var s6 := Press(n, s5, EqualsKey);
    var keys := [DigitKey('1'), DivideKey, DigitKey('0'), EqualsKey, PiKey, EqualsKey];
    RunConcat(n, Initial, keys[..4], keys[4..]);
    assert keys[..4] + keys[4..] == keys;
  }

  /** Running two sequences of presses one after the other. */
  lemma {:induction false} RunConcat(n: Numerics, s: State, a: seq<Key>, b: seq<Key>)
    ensures Run(n, s, a + b) == Run(n, Run(n, s, a), b)
    decreases |a|
  {
    if a != [] {
      assert (a + b)[0] == a[0] && (a + b)[1..] == a[1..] + b;
      RunConcat(n, Press(n, s, a[0]), a[1..], b);
    } else {
      assert a + b == b;
    }
  }

  /** No key empties the display: every handler writes a digit, `"0"`, `"0."`, the sentinel,
      the text of π or e, the old display with a suffix, or a formatted number. */
  lemma PressKeepsDisplay(n: Numerics, s: State, key: Key)
    requires n.Valid() && s.display != []
    ensures Press(n, s, key).display != []
  {
  }

  /** Any sequence of presses from a non-empty display leaves it non-empty. */
  lemma {:induction false} RunKeepsDisplay(n: Numerics, s: State, keys: seq<Key>)
    requires n.Valid() && s.display != []
    ensures Run(n, s, keys).display != []
    decreases |keys|
  {
    if keys != [] {
      PressKeepsDisplay(n, s, keys[0]);
      RunKeepsDisplay(n, Press(n, s, keys[0]), keys[1..]);
    }
  }

  /** The display of a fresh view is never empty, whatever is pressed. */
  lemma DisplayNeverEmpty(n: Numerics, keys: seq<Key>)
    requires n.Valid()
    ensures Run(n, Initial, keys).display != []
  {
    RunKeepsDisplay(n, Initial, keys);
  }
}
