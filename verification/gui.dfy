/**
 The keystroke-to-equation state machine of the `GUI` class, without tkinter.

 The state is the token list `_input`, the display string `value` and the
 append-only `history`. Every handler is a pure transition. A handler whose
 Python body can raise returns a `Step`: the state as far as the body got
 before the exception, and which exception it was. The tkinter main loop
 reports an exception from a button callback and carries on, so that state
 is the one the next key press sees.
 */
module Gui {
  import opened Engine
  import opened Tokens

  /** One `History(equation, value)` record. */
  datatype History = History(equation: string, value: string)

  /** The logical state of a `GUI` object. */
  datatype State = State(input: seq<string>, value: string, history: seq<History>)

  /** How a handler's Python body finished. */
  datatype Outcome =
    | Completed
    | IndexError                   // `[-1]` applied to an empty list
    | Uncaught(exception: string)  // an exception nobody in the GUI catches

  /** The state a handler leaves behind, and how it finished. */
  datatype Step = Step(state: State, outcome: Outcome)

  /** The display value after `calculate` ran on `equation`, when the value
      before was `previous`. */
  function Shown(env: Env, equation: string, previous: string): string
  {
    match env.calculate(equation)
    case Value(text) => text
    case _ => previous
  }

  /** How `calculate` on `equation` finishes: only a SyntaxError is caught. */
  function Finish(env: Env, equation: string): Outcome
  {
    match env.calculate(equation)
    case Raised(e) => Uncaught(e)
    case _ => Completed
  }

  /** `reset_input`. */
  function ResetInput(s: State): (r: State)
    ensures r.input == [] && r.value == s.value && r.history == s.history
  {
    s.(input := [])
  }

  /** `reset_value`. */
  function ResetValue(s: State): (r: State)
    ensures r.value == "0" && r.input == s.input && r.history == s.history
  {
    s.(value := "0")
  }

  /** `update_history`: record the current equation and value. */
  function UpdateHistory(s: State): (r: State)
    ensures r.input == s.input && r.value == s.value
    ensures |r.history| == |s.history| + 1
    ensures r.history[..|s.history|] == s.history
    ensures r.history[|s.history|] == History(Equation(s.input), s.value)
  {
    s.(history := s.history + [History(Equation(s.input), s.value)])
  }

  /** The state `GUI.__init__` leaves: `_input = []`, `value = ''` and
      `history = []`, then `reset_input`, `reset_value`, `update_history`. */
  function Initial(): (s: State)
    ensures s.input == [] && s.value == "0"
    ensures s.history == [History("", "0")]
  {
    UpdateHistory(ResetValue(ResetInput(State([], "", []))))
  }

  /** `calculate`: evaluate the equation and show the result; a SyntaxError
      leaves the value alone, any other exception escapes. */
  function Calculate(env: Env, s: State): (r: Step)
    ensures r.state.input == s.input && r.state.history == s.history
    ensures env.calculate(Equation(s.input)).Value? ==>
              r == Step(s.(value := env.calculate(Equation(s.input)).text), Completed)
    ensures env.calculate(Equation(s.input)).SyntaxError? ==> r == Step(s, Completed)
    ensures env.calculate(Equation(s.input)).Raised? ==>
              r == Step(s, Uncaught(env.calculate(Equation(s.input)).exception))
  {
    Step(s.(value := Shown(env, Equation(s.input), s.value)), Finish(env, Equation(s.input)))
  }

  /** The last token is present and parses as a number. */
  predicate LastIsNumber(env: Env, tokens: seq<string>)
  {
    |tokens| > 0 && env.isNumber(Last(tokens))
  }

  /** `click_digit`: extend a numeric last token, or start a new token. */
  function ClickDigit(env: Env, s: State, digit: string): (r: State)
    ensures LastIsNumber(env, s.input) ==>
              && |r.input| == |s.input|
              && Front(r.input) == Front(s.input)
              && Last(r.input) == Last(s.input) + digit
    ensures !LastIsNumber(env, s.input) ==> r.input == s.input + [digit]
    ensures |r.input| > 0 && r.value == Last(r.input)
    ensures r.history == s.history
  {
    var input :=
      if LastIsNumber(env, s.input) then ReplaceLast(s.input, Last(s.input) + digit)
      else s.input + [digit];
    s.(input := input, value := Last(input))
  }

  /** The token list `click_operator` works on: the input, or, when that is
      empty, the value of the latest history entry as a single token. */
  function Seeded(s: State): (tokens: seq<string>)
    requires |s.input| > 0 || |s.history| > 0
    ensures |tokens| > 0
    ensures |s.input| > 0 ==> tokens == s.input
    ensures |s.input| == 0 ==> tokens == [s.history[|s.history| - 1].value]
  {
    if |s.input| == 0 then [s.history[|s.history| - 1].value] else s.input
  }

  /** `click_operator`: append the operator after a number, otherwise
      replace the last token with it; then run `calculate`. */
  function ClickOperator(env: Env, s: State, op: string): (r: Step)
    ensures |s.input| == 0 && |s.history| == 0 ==> r == Step(s, IndexError)
    ensures |s.input| > 0 || |s.history| > 0 ==>
              var seeded := Seeded(s);
              && |r.state.input| > 0
              && Last(r.state.input) == op
              && (env.isNumber(Last(seeded)) ==> Front(r.state.input) == seeded)
              && (!env.isNumber(Last(seeded)) ==> Front(r.state.input) == Front(seeded))
              && r.state.history == s.history
              && r.state.value == Shown(env, Equation(r.state.input), s.value)
              && r.outcome == Finish(env, Equation(r.state.input))
  {
    if |s.input| == 0 && |s.history| == 0 then
      Step(s, IndexError)
    else
      var seeded := Seeded(s);
      var input := if env.isNumber(Last(seeded)) then seeded + [op] else ReplaceLast(seeded, op);
      Calculate(env, s.(input := input))
  }

  /** `equals`: `calculate`, then `update_history`, then `reset_input`. An
      exception out of `calculate` stops the handler before the history. */
  function Equals(env: Env, s: State): (r: Step)
    ensures env.calculate(Equation(s.input)).Raised? ==>
              r == Step(s, Uncaught(env.calculate(Equation(s.input)).exception))
    ensures !env.calculate(Equation(s.input)).Raised? ==>
              && r.outcome == Completed
              && r.state.input == []
              && r.state.value == Shown(env, Equation(s.input), s.value)
              && r.state.history == s.history + [History(Equation(s.input), r.state.value)]
  {
    var calculated := Calculate(env, s);
    if calculated.outcome != Completed then calculated
    else Step(ResetInput(UpdateHistory(calculated.state)), Completed)
  }

  /** `clear`: `reset_input` and `reset_value`. */
  function Clear(s: State): (r: State)
    ensures r.input == [] && r.value == "0"
    ensures r.history == s.history
  {
    ResetValue(ResetInput(s))
  }

  /** `clear_entry`: drop the last token, if there is one. */
  function ClearEntry(s: State): (r: State)
    ensures |s.input| > 0 ==> r.input == Front(s.input)
    ensures |s.input| == 0 ==> r == s
    ensures r.value == s.value && r.history == s.history
  {
    if |s.input| > 0 then s.(input := Front(s.input)) else s
  }

  /** Python's `t[:-1]`. */
  function DropLastChar(t: string): (r: string)
    ensures |t| == 0 ==> r == ""
    ensures |t| > 0 ==> t == r + [t[|t| - 1]]
  {
    if |t| == 0 then "" else t[..|t| - 1]
  }

  /** `backspace`. Its guard parses as
      `(_input and not is_number(_input[-1])) or len(_input[-1]) == 1`,
      so on an empty list the length test indexes `_input[-1]` and raises,
      after `reset_value` has already run. */
  function Backspace(env: Env, s: State): (r: Step)
    ensures |s.input| == 0 ==> r == Step(s.(value := "0"), IndexError)
    ensures |s.input| > 0 && (!env.isNumber(Last(s.input)) || |Last(s.input)| == 1) ==>
              r == Step(State(Front(s.input), "0", s.history), Completed)
    ensures LastIsNumber(env, s.input) && |Last(s.input)| != 1 ==>
              && r.outcome == Completed
              && |r.state.input| == |s.input|
              && Front(r.state.input) == Front(s.input)
              && Last(r.state.input) == DropLastChar(Last(s.input))
              && r.state.value == Last(r.state.input)
              && r.state.history == s.history
  {
    var reset := ResetValue(s);
    if |s.input| > 0 && !env.isNumber(Last(s.input)) then
      Step(ClearEntry(reset), Completed)
    else if |s.input| == 0 then
      Step(reset, IndexError)
    else if |Last(s.input)| == 1 then
      Step(ClearEntry(reset), Completed)
    else
      var input := ReplaceLast(s.input, DropLastChar(Last(s.input)));
      Step(reset.(input := input, value := Last(input)), Completed)
  }

  /** `square_root`: wrap a numeric last token in `math.sqrt(...)`. */
  function SquareRoot(env: Env, s: State): (r: State)
    ensures LastIsNumber(env, s.input) ==>
              && |r.input| == |s.input|
              && Front(r.input) == Front(s.input)
              && Last(r.input) == "math.sqrt(" + Last(s.input) + ")"
    ensures !LastIsNumber(env, s.input) ==> r.input == s.input
    ensures r.value == s.value && r.history == s.history
  {
    if LastIsNumber(env, s.input) then
      s.(input := ReplaceLast(s.input, "math.sqrt(" + Last(s.input) + ")"))
    else s
  }

  /** `_input[-1] = open + _input[-1] + close`, which raises on an empty
      list before it assigns anything. */
  function WrapLast(s: State, open: string, close: string): (r: Step)
    ensures |s.input| == 0 ==> r == Step(s, IndexError)
    ensures |s.input| > 0 ==>
              && r.outcome == Completed
              && |r.state.input| == |s.input|
              && Front(r.state.input) == Front(s.input)
              && Last(r.state.input) == open + Last(s.input) + close
              && r.state.value == s.value && r.state.history == s.history
  {
    if |s.input| == 0 then Step(s, IndexError)
    else Step(s.(input := ReplaceLast(s.input, open + Last(s.input) + close)), Completed)
  }

  /** `square`: wrap the last token, whatever it is, as `(...)**2`. */
  function Square(s: State): (r: Step)
    ensures |s.input| == 0 ==> r == Step(s, IndexError)
    ensures |s.input| > 0 ==>
              && r.outcome == Completed
              && |r.state.input| == |s.input|
              && Front(r.state.input) == Front(s.input)
              && Last(r.state.input) == "(" + Last(s.input) + ")**2"
              && r.state.value == s.value && r.state.history == s.history
  {
    WrapLast(s, "(", ")**2")
  }

  /** `inverse`: wrap the last token, whatever it is, as `1/(...)`. */
  function Inverse(s: State): (r: Step)
    ensures |s.input| == 0 ==> r == Step(s, IndexError)
    ensures |s.input| > 0 ==>
              && r.outcome == Completed
              && |r.state.input| == |s.input|
              && Front(r.state.input) == Front(s.input)
              && Last(r.state.input) == "1/(" + Last(s.input) + ")"
              && r.state.value == s.value && r.state.history == s.history
  {
    WrapLast(s, "1/(", ")")
  }
}
