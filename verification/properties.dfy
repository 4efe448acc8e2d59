/**
 Properties that relate several handlers, or a handler to the equation it
 builds: what each click does to the equation text, which clicks undo which,
 the history that only grows, and two complete key sequences.
 */
module Properties {
  import opened Engine
  import opened Tokens
  import opened Gui
  import Keypad

  /** A digit click always appends the digit's text to the equation, whether
      it extends the last token or starts a new one. */
  lemma ClickDigitExtendsEquation(env: Env, s: State, digit: string)
    ensures Equation(ClickDigit(env, s, digit).input) == Equation(s.input) + digit
  {
  }

  /** Digit clicks in a row, the last one last. */
  function TypeDigits(env: Env, s: State, digits: seq<string>): State
  {
    if |digits| == 0 then s else ClickDigit(env, TypeDigits(env, s, Front(digits)), Last(digits))
  }

  /** Typing digits appends their joined text to the equation, and leaves the
      history alone. */
  lemma {:induction false} TypeDigitsExtendsEquation(env: Env, s: State, digits: seq<string>)
    ensures Equation(TypeDigits(env, s, digits).input) == Equation(s.input) + Equation(digits)
    ensures TypeDigits(env, s, digits).history == s.history
  {
    if |digits| > 0 {
      TypeDigitsExtendsEquation(env, s, Front(digits));
      ClickDigitExtendsEquation(env, TypeDigits(env, s, Front(digits)), Last(digits));
    }
  }

  /** While every intermediate token still parses as a number, consecutive
      digits accumulate onto the one numeric last token: the list keeps its
      length, the earlier tokens stay, the last token is the old one followed
      by all the digits, and the display shows it. */
  lemma {:induction false} DigitsAccumulate(env: Env, s: State, digits: seq<string>)
    requires |s.input| > 0
    requires forall k :: 0 <= k < |digits| ==> env.isNumber(Last(s.input) + Equation(digits[..k]))
    ensures var r := TypeDigits(env, s, digits);
            && |r.input| == |s.input|
            && Front(r.input) == Front(s.input)
            && Last(r.input) == Last(s.input) + Equation(digits)
            && (|digits| > 0 ==> r.value == Last(r.input))
  {
    if |digits| == 0 {
      assert Last(s.input) + Equation(digits) == Last(s.input);
    } else {
      var front := Front(digits);
      forall k | 0 <= k < |front|
        ensures env.isNumber(Last(s.input) + Equation(front[..k]))
      {
        assert front[..k] == digits[..k];
      }
      DigitsAccumulate(env, s, front);
      var t := TypeDigits(env, s, front);
      assert digits[..|digits| - 1] == front;
      assert LastIsNumber(env, t.input);
    }
  }

  /** No two neighbouring tokens are both non-numeric. */
  predicate Alternating(env: Env, tokens: seq<string>)
  {
    forall i :: 0 < i < |tokens| ==> env.isNumber(tokens[i - 1]) || env.isNumber(tokens[i])
  }

  /** Operators never stack: after `click_operator` the token before the
      operator, if any, is a number, provided no two non-numeric tokens were
      neighbours before. */
  lemma ClickOperatorNeverStacks(env: Env, s: State, op: string)
    requires Alternating(env, s.input)
    ensures var r := ClickOperator(env, s, op);
            && Alternating(env, r.state.input)
            && (|r.state.input| > 1 ==> env.isNumber(r.state.input[|r.state.input| - 2]))
  {
  }

  /** `clear` ends in the same state however often it is clicked. */
  lemma ClearIdempotent(s: State)
    ensures Clear(Clear(s)) == Clear(s)
    ensures EquationText(Clear(s).input) == ""
  {
  }

  /** `clear_entry` undoes a digit click that started a new token. */
  lemma ClearEntryUndoesNewDigit(env: Env, s: State, digit: string)
    requires !LastIsNumber(env, s.input)
    ensures ClearEntry(ClickDigit(env, s, digit)).input == s.input
  {
  }

  /** `clear_entry` undoes the token list of an operator click that followed
      a number. */
  lemma ClearEntryUndoesOperator(env: Env, s: State, op: string)
    requires LastIsNumber(env, s.input)
    ensures ClearEntry(ClickOperator(env, s, op).state).input == s.input
  {
  }

  /** `backspace` undoes a one-character digit click that extended a
      non-empty number, as long as the longer token still parses: the token
      list is restored and the display shows the restored token. */
  lemma BackspaceUndoesDigit(env: Env, s: State, digit: string)
    requires LastIsNumber(env, s.input) && |Last(s.input)| > 0
    requires |digit| == 1 && env.isNumber(Last(s.input) + digit)
    ensures Backspace(env, ClickDigit(env, s, digit)) == Step(s.(value := Last(s.input)), Completed)
  {
  }

  /** Each unary button changes only the tail of the equation: the last
      operand's text is replaced by its wrapped form. */
  lemma UnaryRewritesLastOperand(env: Env, s: State)
    requires |s.input| > 0
    ensures env.isNumber(Last(s.input)) ==>
              Equation(SquareRoot(env, s).input) == Equation(Front(s.input)) + ("math.sqrt(" + Last(s.input) + ")")
    ensures Equation(Square(s).state.input) == Equation(Front(s.input)) + ("(" + Last(s.input) + ")**2")
    ensures Equation(Inverse(s).state.input) == Equation(Front(s.input)) + ("1/(" + Last(s.input) + ")")
  {
  }

  /** Only `=` adds to the history, and then exactly one entry: the equation
      from before the input was reset, with the value just shown. Every other
      click leaves the history as it was. */
  lemma PressHistory(env: Env, s: State, b: Keypad.Button)
    ensures var r := Keypad.Press(env, s, b).state;
            || r.history == s.history
            || (&& Keypad.Route(env, b) == Keypad.Invoke(Keypad.Equals)
                && r.history == s.history + [History(Equation(s.input), r.value)])
  {
  }

  /** The history is append-only: any run of clicks keeps every earlier
      entry in place. */
  lemma {:induction false} PressAllExtendsHistory(env: Env, s: State, keys: seq<Keypad.Button>)
    ensures s.history <= Keypad.PressAll(env, s, keys).history
    decreases |keys|
  {
    if |keys| > 0 {
      var next := Keypad.Press(env, s, keys[0]).state;
      PressHistory(env, s, keys[0]);
      PressAllExtendsHistory(env, next, keys[1..]);
    }
  }

  /** From start-up on, the history is never empty, so the seed lookup
      `history[-1]` of an operator click on an empty input always succeeds. */
  lemma OperatorSeedAvailable(env: Env, keys: seq<Keypad.Button>, op: string)
    ensures var s := Keypad.PressAll(env, Initial(), keys);
            && |s.history| > 0
            && s.history[0] == History("", "0")
            && ClickOperator(env, s, op).outcome != IndexError
  {
    PressAllExtendsHistory(env, Initial(), keys);
  }

  /** The routes of the buttons the two key sequences below use. */
  lemma SequenceRoutes(env: Env)
    requires KeypadParsing(env.isNumber)
    ensures Keypad.Route(env, Keypad.Buttons[8]) == Keypad.DigitClick("7")
    ensures Keypad.Route(env, Keypad.Buttons[19]) == Keypad.OperatorClick("+")
    ensures Keypad.Route(env, Keypad.Buttons[18]) == Keypad.DigitClick("3")
    ensures Keypad.Route(env, Keypad.Buttons[23]) == Keypad.Invoke(Keypad.Equals)
    ensures Keypad.Route(env, Keypad.Buttons[16]) == Keypad.DigitClick("1")
    ensures Keypad.Route(env, Keypad.Buttons[22]) == Keypad.OperatorClick(".")
    ensures Keypad.Route(env, Keypad.Buttons[13]) == Keypad.DigitClick("5")
  {
  }

  /** Typing `7`, `+`, `3`, `=` on the keypad from start-up shows the result,
      records `("7+3", result)` and empties the equation display. */
  lemma SevenPlusThree(env: Env)
    requires KeypadParsing(env.isNumber)
    requires env.calculate("7+3") == Value("10")
    ensures var s := Keypad.PressAll(env, Initial(),
                       [Keypad.Buttons[8], Keypad.Buttons[19], Keypad.Buttons[18], Keypad.Buttons[23]]);
            && s.value == "10"
            && s.history == [History("", "0"), History("7+3", "10")]
            && s.input == []
            && EquationText(s.input) == ""
  {
    var keys := [Keypad.Buttons[8], Keypad.Buttons[19], Keypad.Buttons[18], Keypad.Buttons[23]];
    var s0 := Initial();
    SequenceRoutes(env);
    var s1 := Keypad.Press(env, s0, keys[0]).state;
    assert s1.input == ["7"];
    var s2 := Keypad.Press(env, s1, keys[1]).state;
    assert s2.input == ["7", "+"];
    var s3 := Keypad.Press(env, s2, keys[2]).state;
    assert s3.input == ["7", "+", "3"];
    assert Equation(s3.input) == "7+3" by {
      assert Equation(["7"]) == "7";
      assert Equation(["7", "+"]) == "7+";
    }
    var s4 := Keypad.Press(env, s3, keys[3]).state;
    assert s4.value == "10" && s4.history == [History("", "0"), History("7+3", "10")];
    assert keys[3..] == [keys[3]];
    assert Keypad.PressAll(env, s2, keys[2..]) == Keypad.PressAll(env, s3, keys[3..]) by {
      assert keys[2..][1..] == keys[3..];
    }
    assert Keypad.PressAll(env, s1, keys[1..]) == Keypad.PressAll(env, s2, keys[2..]) by {
      assert keys[1..][1..] == keys[2..];
    }
  }

  /** The `.` button is an operator button, yet `1`, `.`, `5` still builds
      the equation `1.5`, as three tokens; the display shows only `5`. */
  lemma DecimalPointByConcatenation(env: Env, s: State)
    requires KeypadParsing(env.isNumber)
    requires s.input == []
    ensures var r := Keypad.PressAll(env, s, [Keypad.Buttons[16], Keypad.Buttons[22], Keypad.Buttons[13]]);
            && r.input == ["1", ".", "5"]
            && Equation(r.input) == "1.5"
            && r.value == "5"
  {
    var keys := [Keypad.Buttons[16], Keypad.Buttons[22], Keypad.Buttons[13]];
    SequenceRoutes(env);
    var s1 := Keypad.Press(env, s, keys[0]).state;
    assert s1.input == ["1"];
    var s2 := Keypad.Press(env, s1, keys[1]).state;
    assert s2.input == ["1", "."];
    var s3 := Keypad.Press(env, s2, keys[2]).state;
    assert s3.input == ["1", ".", "5"];
    assert Equation(s3.input) == "1.5" by {
      assert Equation(["1"]) == "1";
      assert Equation(["1", "."]) == "1.";
    }
    assert Keypad.PressAll(env, s2, keys[2..]) == s3 by {
      assert keys[2..][1..] == [];
    }
    assert Keypad.PressAll(env, s1, keys[1..]) == Keypad.PressAll(env, s2, keys[2..]) by {
      assert keys[1..][1..] == keys[2..];
    }
  }
}
