/**
 The keypad: the 24 buttons `init_buttons` declares, and the rule in
 `create_button` that decides which handler a click on each one runs.
 */
module Keypad {
  import opened Engine
  import opened Tokens
  import Gui

  datatype Option<T> = None | Some(value: T)

  /** The handlers a button can name as its own `command`. `Negate` is the
      `lambda x: -x` of the `±` button. */
  datatype Command =
    | SquareRoot | Square | Inverse | ClearEntry | Clear | Backspace | Equals | Negate

  /** The `Button(name, text, replacement, command, style)` record, without
      its style. */
  datatype Button = Button(name: string, text: string, replacement: Option<string>, command: Option<Command>)

  /** What a click does. */
  datatype Action = Invoke(command: Command) | DigitClick(digit: string) | OperatorClick(symbol: string)

  /** `button.replacement or button.text`: a missing or empty replacement
      falls back to the label. */
  function ButtonValue(b: Button): (v: string)
    ensures v == b.text || b.replacement == Some(v)
    ensures v != b.text ==> v != ""
    ensures (b.replacement.Some? && b.replacement.value != "") ==> v == b.replacement.value
  {
    match b.replacement
    case Some(r) => if r != "" then r else b.text
    case None => b.text
  }

  /** `create_button`'s choice of callback: the button's own command when it
      has one, otherwise `click_digit` for a value `is_number` accepts and
      `click_operator` for anything else. */
  function Route(env: Env, b: Button): (a: Action)
    ensures a.Invoke? <==> b.command.Some?
    ensures a.Invoke? ==> b.command == Some(a.command)
    ensures a.DigitClick? ==> a.digit == ButtonValue(b) && env.isNumber(a.digit)
    ensures a.OperatorClick? ==> a.symbol == ButtonValue(b) && !env.isNumber(a.symbol)
  {
    match b.command
    case Some(c) => Invoke(c)
    case None =>
      if env.isNumber(ButtonValue(b)) then DigitClick(ButtonValue(b)) else OperatorClick(ButtonValue(b))
  }

  /** Run the callback. The `±` lambda is called without the argument it
      declares, which Python rejects with a TypeError before it does anything. */
  function Perform(env: Env, s: Gui.State, a: Action): (r: Gui.Step)
    ensures a == Invoke(Negate) ==> r == Gui.Step(s, Gui.Uncaught("TypeError"))
    ensures a != Invoke(Equals) ==> r.state.history == s.history
    ensures (|| a.DigitClick? || a == Invoke(SquareRoot)
             || a == Invoke(ClearEntry) || a == Invoke(Clear)) ==> r.outcome == Gui.Completed
    ensures r.outcome == Gui.IndexError ==>
              || a.OperatorClick? || a == Invoke(Square) || a == Invoke(Inverse) || a == Invoke(Backspace)
  {
    match a
    case DigitClick(d) => Gui.Step(Gui.ClickDigit(env, s, d), Gui.Completed)
    case OperatorClick(op) => Gui.ClickOperator(env, s, op)
    case Invoke(SquareRoot) => Gui.Step(Gui.SquareRoot(env, s), Gui.Completed)
    case Invoke(Square) => Gui.Square(s)
    case Invoke(Inverse) => Gui.Inverse(s)
    case Invoke(ClearEntry) => Gui.Step(Gui.ClearEntry(s), Gui.Completed)
    case Invoke(Clear) => Gui.Step(Gui.Clear(s), Gui.Completed)
    case Invoke(Backspace) => Gui.Backspace(env, s)
    case Invoke(Equals) => Gui.Equals(env, s)
    case Invoke(Negate) => Gui.Step(s, Gui.Uncaught("TypeError"))
  }

  /** One click on button `b`. */
  function Press(env: Env, s: Gui.State, b: Button): (r: Gui.Step)
    ensures b.command == Some(Negate) ==> r == Gui.Step(s, Gui.Uncaught("TypeError"))
    ensures b.command.None? && env.isNumber(ButtonValue(b)) ==>
              r == Gui.Step(Gui.ClickDigit(env, s, ButtonValue(b)), Gui.Completed)
    ensures b.command.None? && !env.isNumber(ButtonValue(b)) ==>
              r == Gui.ClickOperator(env, s, ButtonValue(b))
  {
    Perform(env, s, Route(env, b))
  }

  /** A run of clicks. An exception in one callback is reported by the main
      loop, which then goes on with the state the callback left. */
  function PressAll(env: Env, s: Gui.State, keys: seq<Button>): (r: Gui.State)
    ensures |keys| == 0 ==> r == s
    ensures |keys| == 1 ==> r == Press(env, s, keys[0]).state
    decreases |keys|
  {
    if |keys| == 0 then s else PressAll(env, Press(env, s, keys[0]).state, keys[1..])
  }

  /** A run of clicks split in two is the second part run from the state the
      first part left, whatever exceptions were raised along the way. */
  lemma {:induction false} PressAllAppend(env: Env, s: Gui.State, a: seq<Button>, b: seq<Button>)
    ensures PressAll(env, s, a + b) == PressAll(env, PressAll(env, s, a), b)
    decreases |a|
  {
    if |a| == 0 {
      assert a + b == b;
    } else {
      assert (a + b)[0] == a[0];
      assert (a + b)[1..] == a[1..] + b;
      PressAllAppend(env, Press(env, s, a[0]).state, a[1..], b);
    }
  }

  /** The buttons of `init_buttons`, in grid order. */
  const Buttons: seq<Button> := [
    Button("percent", "%", None, None),
    Button("square_root", "\U{221A}", None, Some(SquareRoot)),
    Button("square", "x\U{00B2}", None, Some(Square)),
    Button("inverse", "1/x", None, Some(Inverse)),
    Button("clear_entry", "CE", None, Some(ClearEntry)),
    Button("clear", "C", None, Some(Clear)),
    Button("backspace", "\U{232B}", None, Some(Backspace)),
    Button("divide", "\U{00F7}", Some("/"), None),
    Button("seven", "7", None, None),
    Button("eight", "8", None, None),
    Button("nine", "9", None, None),
    Button("multiply", "\U{00D7}", Some("*"), None),
    Button("four", "4", None, None),
    Button("five", "5", None, None),
    Button("six", "6", None, None),
    Button("minus", "\U{2212}", Some("-"), None),
    Button("one", "1", None, None),
    Button("two", "2", None, None),
    Button("three", "3", None, None),
    Button("plus", "+", None, None),
    Button("plus-minus", "\U{00B1}", None, Some(Negate)),
    Button("zero", "0", None, None),
    Button("decimal", ".", None, None),
    Button("equals", "=", None, Some(Equals))
  ]

  /** Every button without a command of its own sends a single digit or one
      of the operator symbols; the three operators with a typographic label
      send their ASCII replacement. */
  lemma ButtonValues()
    ensures forall i :: 0 <= i < |Buttons| && Buttons[i].command.None? ==>
              IsDigit(ButtonValue(Buttons[i])) || IsOperatorSymbol(ButtonValue(Buttons[i]))
    ensures ButtonValue(Buttons[7]) == "/" && ButtonValue(Buttons[11]) == "*"
    ensures ButtonValue(Buttons[15]) == "-"
  {
  }

  /** On the real keypad, the digit buttons reach `click_digit` with their
      digit, and every other command-less button, `.` and `%` included,
      reaches `click_operator`. */
  lemma KeypadRouting(env: Env)
    requires KeypadParsing(env.isNumber)
    ensures forall i :: 0 <= i < |Buttons| ==>
              Route(env, Buttons[i]) ==
                (if Buttons[i].command.Some? then Invoke(Buttons[i].command.value)
                 else if IsDigit(ButtonValue(Buttons[i])) then DigitClick(ButtonValue(Buttons[i]))
                 else OperatorClick(ButtonValue(Buttons[i])))
    ensures Route(env, Buttons[22]) == OperatorClick(".")
    ensures Route(env, Buttons[0]) == OperatorClick("%")
  {
  }
}
