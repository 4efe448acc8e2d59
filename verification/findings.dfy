/**
 Two places where the handlers as written do not do what their own comments
 and structure aim at. Each comes with the behaviour as written, the input
 that shows it, and a corrected definition with the intended property.
 */
module Findings {
  import opened Engine
  import opened Tokens
  import opened Gui
  import Properties

  // ---------------------------------------------------------------------
  // Backspace on an empty input.
  // ---------------------------------------------------------------------

  /** As written, `⌫` right after `=` raises: `=` empties the input, and the
      guard `_input and not is_number(_input[-1]) or len(_input[-1]) == 1`
      falls through to its length test, which reads `_input[-1]`. */
  lemma BackspaceAfterEqualsRaises(env: Env, s: State)
    requires !env.calculate(Equation(s.input)).Raised?
    ensures Equals(env, s).state.input == []
    ensures Backspace(env, Equals(env, s).state).outcome == IndexError
  {
  }

  /** `backspace` with the guard the code evidently means, "clear the last
      entry if there is none to shorten": an empty input goes to
      `clear_entry`, whose own guard already handles it. */
  function GuardedBackspace(env: Env, s: State): (r: Step)
    ensures r.outcome == Completed
    ensures |s.input| == 0 ==> r.state == s.(value := "0")
    ensures r.state.history == s.history
  {
    var reset := ResetValue(s);
    if |s.input| == 0 || !env.isNumber(Last(s.input)) || |Last(s.input)| == 1 then
      Step(ClearEntry(reset), Completed)
    else
      var input := ReplaceLast(s.input, DropLastChar(Last(s.input)));
      Step(reset.(input := input, value := Last(input)), Completed)
  }

  /** The correction changes nothing on a non-empty input, and turns the
      empty-input click into the reset of the display to `0`. */
  lemma GuardedBackspaceAgrees(env: Env, s: State)
    ensures |s.input| > 0 ==> GuardedBackspace(env, s) == Backspace(env, s)
    ensures |s.input| == 0 ==> GuardedBackspace(env, s) == Step(Backspace(env, s).state, Completed)
  {
  }

  // ---------------------------------------------------------------------
  // An operand built by a unary button is lost at the next operator.
  // ---------------------------------------------------------------------

  /** `t` starts with `open` and ends with `close`, with room for both. */
  predicate Wrapped(t: string, open: string, close: string)
  {
    |t| >= |open| + |close| && t[..|open|] == open && t[|t| - |close|..] == close
  }

  /** A token built as `open + x + close` is wrapped by `open` and `close`. */
  lemma WrappedForm(open: string, x: string, close: string)
    ensures Wrapped(open + x + close, open, close)
  {
    var t := open + x + close;
    assert t[..|open|] == open;
    assert t[|t| - |close|..] == close;
  }

  /** The text `square_root`, `square` or `inverse` leaves as the last token. */
  predicate IsUnaryForm(t: string)
  {
    Wrapped(t, "math.sqrt(", ")") || Wrapped(t, "(", ")**2") || Wrapped(t, "1/(", ")")
  }

  /** As written, `4`, `√`, `+` leaves the single token `+`: `float()` does
      not parse `math.sqrt(4)`, so `click_operator` takes it for an operator
      and replaces it. In general the wrapped operand disappears from the
      equation. */
  lemma SquareRootThenOperatorDropsOperand(env: Env, s: State, op: string)
    requires LastIsNumber(env, s.input)
    requires !env.isNumber("math.sqrt(" + Last(s.input) + ")")
    ensures ClickOperator(env, SquareRoot(env, s), op).state.input == Front(s.input) + [op]
    ensures s.input == ["4"] ==> ClickOperator(env, SquareRoot(env, s), op).state.input == [op]
  {
  }

  /** As written, the same replacement makes operators stack. After `√` on a
      number that follows an operator, the next operator overwrites the
      wrapped operand and lands right after the earlier operator, so the
      "no two neighbouring non-numeric tokens" shape that `click_operator`
      otherwise keeps is lost. */
  lemma SquareRootThenOperatorStacks(env: Env, s: State, op: string)
    requires LastIsNumber(env, s.input) && |s.input| > 1
    requires !env.isNumber(s.input[|s.input| - 2]) && !env.isNumber(op)
    requires !env.isNumber("math.sqrt(" + Last(s.input) + ")")
    ensures var r := ClickOperator(env, SquareRoot(env, s), op).state.input;
            && r == Front(s.input) + [op]
            && !Properties.Alternating(env, r)
  {
  }

  /** The concrete case: `1 + 2 √ -` leaves the equation `1+-`. */
  lemma OnePlusTwoRootMinus(env: Env, s: State)
    requires env.isNumber("1") && env.isNumber("2") && !env.isNumber("+") && !env.isNumber("-")
    requires !env.isNumber("math.sqrt(2)")
    requires s.input == ["1", "+", "2"]
    ensures Properties.Alternating(env, s.input)
    ensures var r := ClickOperator(env, SquareRoot(env, s), "-").state.input;
            && r == ["1", "+", "-"]
            && Equation(r) == "1+-"
            && !Properties.Alternating(env, r)
  {
    assert "math.sqrt(" + Last(s.input) + ")" == "math.sqrt(2)";
    SquareRootThenOperatorStacks(env, s, "-");
    assert Front(s.input) == ["1", "+"];
    assert Equation(["1", "+"]) == "1+" by {
      assert Equation(["1"]) == "1";
    }
  }

  /** A token the next operator must keep: a number, or a unary form. */
  predicate IsOperand(env: Env, t: string)
  {
    env.isNumber(t) || IsUnaryForm(t)
  }

  /** `click_operator` with the replace branch taken only when the last
      token is not an operand. */
  function OperandAwareClickOperator(env: Env, s: State, op: string): (r: Step)
    ensures |s.input| == 0 && |s.history| == 0 ==> r == Step(s, IndexError)
    ensures |s.input| > 0 || |s.history| > 0 ==>
              var seeded := Seeded(s);
              && |r.state.input| > 0
              && Last(r.state.input) == op
              && (IsOperand(env, Last(seeded)) ==> Front(r.state.input) == seeded)
              && (!IsOperand(env, Last(seeded)) ==> Front(r.state.input) == Front(seeded))
              && r.state.history == s.history
              && r.state.value == Shown(env, Equation(r.state.input), s.value)
              && r.outcome == Finish(env, Equation(r.state.input))
  {
    if |s.input| == 0 && |s.history| == 0 then
      Step(s, IndexError)
    else
      var seeded := Seeded(s);
      var keep := IsOperand(env, Last(seeded));
      var input := if keep then seeded + [op] else ReplaceLast(seeded, op);
      assert Front(input) == (if keep then seeded else Front(seeded));
      Calculate(env, s.(input := input))
  }

  /** With the correction, the operand a unary button built stays in the
      equation and the operator follows it. */
  lemma UnaryOperandSurvivesOperator(env: Env, s: State, op: string)
    requires |s.input| > 0
    ensures env.isNumber(Last(s.input)) ==>
              OperandAwareClickOperator(env, SquareRoot(env, s), op).state.input == SquareRoot(env, s).input + [op]
    ensures OperandAwareClickOperator(env, Square(s).state, op).state.input == Square(s).state.input + [op]
    ensures OperandAwareClickOperator(env, Inverse(s).state, op).state.input == Inverse(s).state.input + [op]
  {
    WrappedForm("math.sqrt(", Last(s.input), ")");
    WrappedForm("(", Last(s.input), ")**2");
    WrappedForm("1/(", Last(s.input), ")");
  }

  /** No two neighbouring tokens are both non-operands. */
  predicate OperandAlternating(env: Env, tokens: seq<string>)
  {
    forall i :: 0 < i < |tokens| ==> IsOperand(env, tokens[i - 1]) || IsOperand(env, tokens[i])
  }

  /** With the correction, operators never stack: the token before the new
      operator is an operand, and the alternation of operands and operators
      is kept. */
  lemma OperandAwareNeverStacks(env: Env, s: State, op: string)
    requires OperandAlternating(env, s.input)
    ensures var r := OperandAwareClickOperator(env, s, op);
            && OperandAlternating(env, r.state.input)
            && (|r.state.input| > 1 ==> IsOperand(env, r.state.input[|r.state.input| - 2]))
  {
  }

  /** With the correction, `1 + 2 √ -` keeps the root: `1+math.sqrt(2)-`. */
  lemma OnePlusTwoRootMinusCorrected(env: Env, s: State)
    requires env.isNumber("2")
    requires s.input == ["1", "+", "2"]
    ensures OperandAwareClickOperator(env, SquareRoot(env, s), "-").state.input == ["1", "+", "math.sqrt(2)", "-"]
  {
    assert "math.sqrt(" + Last(s.input) + ")" == "math.sqrt(2)";
    UnaryOperandSurvivesOperator(env, s, "-");
  }

  /** Everywhere else the correction behaves like the original. */
  lemma OperandAwareAgrees(env: Env, s: State, op: string)
    requires |s.input| > 0 || |s.history| > 0
    requires !IsUnaryForm(Last(Seeded(s)))
    ensures OperandAwareClickOperator(env, s, op) == ClickOperator(env, s, op)
  {
  }
}
