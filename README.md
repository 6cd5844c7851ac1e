# Calculator engine of `tutorialonexcode`

The repository is a one-screen SwiftUI calculator. The only logic it has sits inside the view
`ContentView`. Four `@State` fields hold the engine: the display text, the pending operation, the
left operand and the "replace on next digit" flag. A fifth field, the angle mode, matters only for
the trigonometric keys. Each button runs a small handler that updates these fields in place. The
same file holds `Color.init(hex:)`, which decodes a hexadecimal colour string into four byte
components.

The model has five files:

- `wrappers.dfy`: `Option`, which stands for Swift's `T?`.
- `engine.dfy` (module `Engine`): the engine as pure transitions, one function per handler. It also
  holds the keypad wiring (`Press`) and the running of a sequence of presses (`Run`). A Swift `Double`
  is a `real`. `+`, `-`, `*`, `/` and the `/ 100` of the percentage key are exact. The library
  functions the handlers call are fields of a `Numerics` record and are left uninterpreted:
  `Double(_:)`, `formatResult`, `sqrt`, `pow`, `sin`, `cos`, `tan`, `log10`, `log` and `Double.pi`.
  Only two facts about them are assumed, in `Numerics.Valid`: `"Error"` does not parse as a number,
  and `formatResult` never yields `"Error"` or the empty string.
- `engine_properties.dfy` (module `EngineProperties`): the properties of the engine.
- `calculator.dfy` (module `CalculatorView`): class `ContentView`. It holds the `@State` fields and
  has one method per handler, written as the Swift code runs it: same guards, early returns and
  field assignments. Each method is proved to perform exactly the engine's transition. So every
  engine property also holds of the view.
- `hex_color.dfy` (module `HexColor`): the integer part of `Color.init(hex:)`. `>>` is division by
  a power of two, and a mask `& 0xF` / `& 0xFF` is the remainder modulo 16 / 256.

The model follows the code as written, quirks included:

- A domain error writes `"Error"` and changes nothing else. The replace flag is not raised, and the
  pending operation and left operand stay as they were. After `1 ÷ 0 =`, the next digit is appended
  to the sentinel (`"Error5"`; see `DivideByZeroThenDigit`). The stale division can still be
  completed later (`StaleOperationAfterError`).
- `1/x` of zero does nothing; it does not show an error.
- The π and e keys write the interpolated `Double` text (`"3.141592653589793"`,
  `"2.718281828459045"`), not `formatResult`'s rendering.
- "AC" resets the four engine fields and keeps the angle mode.
- A successful `=` clears the pending operation but keeps the left operand.

## Model

| member | source | states |
|---|---|---|
| `Engine.Unary` | tutorialonexcode/ContentView.swift:262-302 | the unary switch reports a domain error exactly for √ of a negative value or log/ln of a non-positive value; it ignores exactly the binary operations (`default: return`); percentage is value / 100, and every other unary operation in its domain yields its library function (√, log10, ln, and sin/cos/tan of the converted angle) |
| `Engine.Binary` | tutorialonexcode/ContentView.swift:313-333 | the binary switch reports a domain error exactly for division by zero; it ignores exactly the non-binary operations; `+ - * /` (by a non-zero divisor) and `pow` combine the left operand with the display value, in that order |
| `Engine.AppendDigit` | tutorialonexcode/ContentView.swift:216-223 | afterwards the replace flag is down; the display is the digit alone exactly when a new number was due (flag up, or display `"0"`, or an empty display, which `DisplayNeverEmpty` rules out), and otherwise the old display followed by the digit; operation, operand and angle mode are unchanged |
| `Engine.AppendDecimal` | tutorialonexcode/ContentView.swift:225-232 | afterwards the display holds a point and the flag is down; a due number becomes `"0."`; a number being typed without a point gets `"."` appended; a number that already has a point is left as it is; at most one point is added |
| `Engine.Clear` | tutorialonexcode/ContentView.swift:234-239 | the result is the initial state with the angle mode kept; with radian mode it is the initial state itself |
| `Engine.Negate` | tutorialonexcode/ContentView.swift:241-245 | no change when the display does not parse; otherwise the display becomes the formatted negation; the replace flag, operation and operand never change |
| `Engine.Square` | tutorialonexcode/ContentView.swift:247-252 | no change when the display does not parse; otherwise the display becomes the formatted square and the flag goes up; operation, operand and angle mode are unchanged |
| `Engine.Reciprocal` | tutorialonexcode/ContentView.swift:127-132 | no change when the display does not parse or is zero; otherwise the display becomes the formatted 1/x and the flag goes up |
| `Engine.PressPi` | tutorialonexcode/ContentView.swift:94-97 | the display becomes the text of `Double.pi` and the flag goes up; operation, operand and angle mode are unchanged |
| `Engine.PressE` | tutorialonexcode/ContentView.swift:121-124 | the display becomes the text of `M_E` and the flag goes up; operation, operand and angle mode are unchanged |
| `Engine.ToggleRadianMode` | tutorialonexcode/ContentView.swift:78-80 | the angle mode flips and nothing else changes |
| `Engine.SetOperation` | tutorialonexcode/ContentView.swift:254-260 | no change when the display does not parse; otherwise the operand is the parsed display, the operator is recorded and the flag goes up; the display is never changed |
| `Engine.Scientific` | tutorialonexcode/ContentView.swift:262-306 | no change when the display does not parse or the operation is binary; otherwise the result is either unchanged, or only the display set to `"Error"`, or a new value with the flag up; when the operation yields a value, the display becomes its formatted text and the flag goes up (lines 304-305); operation and operand are never changed |
| `Engine.Calculate` | tutorialonexcode/ContentView.swift:308-338 | no change unless an operation, an operand and a parseable display are all present; the operand is always kept; otherwise the result is unchanged, or only the display set to `"Error"`, or a result with the operation cleared and the flag up; when the pending operation yields a value, the display becomes its formatted text, the operation is cleared and the flag goes up (lines 335-337) |
| `Engine.Press` | tutorialonexcode/ContentView.swift:75-212 | only the RAD/DEG button changes the angle mode; only an operator key or AC changes the operand; only an operator key, AC or `=` changes the pending operation |
| `Engine.Run` | tutorialonexcode/ContentView.swift:138-212 | over any sequence of presses, the angle mode stays the same unless RAD/DEG is pressed, and the operand stays the same unless an operator key or AC is pressed |
| `EngineProperties.ClearIsIdempotent` | tutorialonexcode/ContentView.swift:234-239 | AC twice is AC once |
| `EngineProperties.SecondOperatorOverwrites` | tutorialonexcode/ContentView.swift:254-260 | a second operator replaces the pending one; nothing is evaluated in between |
| `EngineProperties.CalculateIsIdempotent` | tutorialonexcode/ContentView.swift:308-338 | pressing `=` again with nothing in between does nothing, whether the first press gave a result, an error or nothing |
| `EngineProperties.ScientificDomainError` | tutorialonexcode/ContentView.swift:270-299 | √ of a negative and log/ln of a non-positive value change the display to `"Error"` and nothing else; the replace flag, operation and operand are kept |
| `EngineProperties.DivisionByZero` | tutorialonexcode/ContentView.swift:322-328 | a pending division by zero changes the display to `"Error"` and nothing else; the division and the operand stay pending |
| `EngineProperties.DivisionResult` | tutorialonexcode/ContentView.swift:322-337 | a ready division by a non-zero divisor shows the formatted quotient, clears the operation, keeps the operand and raises the flag |
| `EngineProperties.TrigonometryAngle` | tutorialonexcode/ContentView.swift:277-305 | sine takes the displayed value as radians in radian mode; in degree mode sine, cosine and tangent show the formatted function of `value * .pi / 180` with the flag up |
| `EngineProperties.ScientificErrorIff` | tutorialonexcode/ContentView.swift:262-306 | after a unary operation the display is `"Error"` if and only if it already was, or the parsed operand is out of the operation's domain |
| `EngineProperties.CalculateErrorIff` | tutorialonexcode/ContentView.swift:308-338 | after `=` the display is `"Error"` if and only if it already was, or a ready division has a zero divisor |
| `EngineProperties.ErrorDisablesGuardedHandlers` | tutorialonexcode/ContentView.swift:241-338 | while `"Error"` is shown, negate, square, 1/x, `=`, every operator and every unary operation do nothing |
| `EngineProperties.AngleModeOnlyAffectsTrigonometry` | tutorialonexcode/ContentView.swift:277-285 | every button other than sin, cos, tan and RAD/DEG behaves the same in both angle modes |
| `EngineProperties.TypingExtends` | tutorialonexcode/ContentView.swift:216-223 | typing digits onto a number being entered (not `"0"`) appends them all |
| `EngineProperties.TypingNumber` | tutorialonexcode/ContentView.swift:216-223 | typing a non-empty digit string when a new number is due shows the digits with leading zeros removed, or `"0"` if all are zeros; the flag goes down and nothing else changes |
| `EngineProperties.AtMostOnePoint` | tutorialonexcode/ContentView.swift:216-232 | any sequence of digit and point keys keeps at most one decimal point in the display, from a display with at most one point or from a due number |
| `EngineProperties.PressKeepsDisplay` | tutorialonexcode/ContentView.swift:75-338 | no button empties a non-empty display: each handler writes a digit, `"0"`, `"0."`, `"Error"`, the π or e text, the display with a suffix, or a formatted number |
| `EngineProperties.RunKeepsDisplay` | tutorialonexcode/ContentView.swift:75-338 | a non-empty display stays non-empty over any sequence of presses |
| `EngineProperties.DisplayNeverEmpty` | tutorialonexcode/ContentView.swift:11-338 | starting from the initial `"0"`, the display is never empty, whatever is pressed |
| `EngineProperties.OnePlusTwo` | tutorialonexcode/ContentView.swift:308-338 | `1 + 2 =` shows the formatted 3, clears the operation and keeps 1 as the operand |
| `EngineProperties.ThreeSquared` | tutorialonexcode/ContentView.swift:247-252 | `3 x²` shows the formatted 9 without `=` |
| `EngineProperties.DivideByZeroThenDigit` | tutorialonexcode/ContentView.swift:322-328 | `1 ÷ 0 =` shows `"Error"` with the flag still down and the division pending, so a following `5` shows `"Error5"` |
| `EngineProperties.StaleOperationAfterError` | tutorialonexcode/ContentView.swift:308-338 | after `1 ÷ 0 =`, pressing `π =` completes the stale division as 1 / π |
| `CalculatorView.ContentView.constructor` | tutorialonexcode/ContentView.swift:11-16 | the fields start as `"0"`, no operation, no operand, flag up, radian mode |
| `CalculatorView.ContentView.AppendDigit` | tutorialonexcode/ContentView.swift:216-223 | the in-place update makes exactly the `Engine.AppendDigit` transition |
| `CalculatorView.ContentView.AppendDecimal` | tutorialonexcode/ContentView.swift:225-232 | the in-place update makes exactly the `Engine.AppendDecimal` transition |
| `CalculatorView.ContentView.Clear` | tutorialonexcode/ContentView.swift:234-239 | the in-place update makes exactly the `Engine.Clear` transition |
| `CalculatorView.ContentView.NegateNumber` | tutorialonexcode/ContentView.swift:241-245 | the in-place update makes exactly the `Engine.Negate` transition |
| `CalculatorView.ContentView.CalculateSquare` | tutorialonexcode/ContentView.swift:247-252 | the in-place update makes exactly the `Engine.Square` transition |
| `CalculatorView.ContentView.SetOperation` | tutorialonexcode/ContentView.swift:254-260 | the in-place update makes exactly the `Engine.SetOperation` transition |
| `CalculatorView.ContentView.PerformScientificOperation` | tutorialonexcode/ContentView.swift:262-306 | the guard, the switch with its early error returns and the final write make exactly the `Engine.Scientific` transition |
| `CalculatorView.ContentView.Calculate` | tutorialonexcode/ContentView.swift:308-338 | the three-way guard, the switch and the final writes make exactly the `Engine.Calculate` transition |
| `CalculatorView.ContentView.PressPi` | tutorialonexcode/ContentView.swift:94-97 | the in-place update makes exactly the `Engine.PressPi` transition |
| `CalculatorView.ContentView.PressE` | tutorialonexcode/ContentView.swift:121-124 | the in-place update makes exactly the `Engine.PressE` transition |
| `CalculatorView.ContentView.Reciprocal` | tutorialonexcode/ContentView.swift:127-132 | the in-place update makes exactly the `Engine.Reciprocal` transition |
| `CalculatorView.ContentView.ToggleRadianMode` | tutorialonexcode/ContentView.swift:78-80 | the in-place update makes exactly the `Engine.ToggleRadianMode` transition |
| `CalculatorView.ContentView.Press` | tutorialonexcode/ContentView.swift:75-212 | each button calls its handler, which gives exactly the `Engine.Press` transition |
| `HexColor.HexValue` | tutorialonexcode/ContentView.swift:399-400 | the scanned integer of n hexadecimal digits is below 16^n |
| `HexColor.HexValueAppend` | tutorialonexcode/ContentView.swift:399-400 | scanning `p + q` gives the value of `p` shifted left by four bits per digit of `q`, plus the value of `q` |
| `HexColor.Components` | tutorialonexcode/ContentView.swift:401-411 | every component is at most 255, whatever the length |
| `HexColor.Rgb12` | tutorialonexcode/ContentView.swift:403-404 | three digits give alpha 255 and each colour equal to its digit times 17, that is the digit written twice |
| `HexColor.Rgb24` | tutorialonexcode/ContentView.swift:405-406 | six digits give alpha 255 and red, green and blue equal to the three bytes in order |
| `HexColor.Argb32` | tutorialonexcode/ContentView.swift:407-408 | eight digits give alpha, red, green and blue equal to the four bytes in order |
| `HexColor.OtherLength` | tutorialonexcode/ContentView.swift:409-410 | any other length gives (1, 1, 1, 0) |
| `HexColor.DecodeArgbHex` | tutorialonexcode/ContentView.swift:407-408 | decoding the eight-digit spelling of any byte colour gives that colour back |
| `HexColor.EncodeArgbComponents` | tutorialonexcode/ContentView.swift:407-408 | every eight-digit string is the spelling of the colour it decodes to |

## Left out

- SwiftUI layout and styling (`body`, the display area, the button grids' appearance, the three
  button styles, `#Preview`). These are presentation. Only which handler each button calls is modelled.
- `isInScientificMode` and its toggle: it only shows or hides the scientific buttons.
- Floating point: `Double` is a `real`. NaN, infinities, signed zero and rounding are not modelled.
  For example, `+/-` on `"0"` shows `formatResult(-0.0)` in the source. The model cannot tell
  `-0.0` from `0`.
- The values of `sqrt`, `pow`, `sin`, `cos`, `tan`, `log10`, `log` and `Double.pi` are left out; they
  are uninterpreted fields of `Numerics`. The guards and the degree-to-radian conversion around them
  are modelled.
- `Double(_:)` and `formatResult` (a locale-dependent `NumberFormatter` with at most eight fraction
  digits) are uninterpreted. Only the facts in `Numerics.Valid` are assumed about them. So the
  round trip between formatting and parsing is not stated.
- `Engine.AppendDigit`: the digit is a `char`. The source takes a `String`, but every button passes a
  one-digit literal.
- `HexColor.Components`: the input is a sequence of digit values. The `CharacterSet` trimming and
  the behaviour of `Scanner.scanHexInt64` on non-hex characters or a `0x` prefix are not modelled.
  They are Foundation calls.
- The `sRGB` colour built from the components divided by 255 is floating point and a library call.
