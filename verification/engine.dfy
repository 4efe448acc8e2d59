/**
 The two calls the calculator makes into code it does not own.

 - `is_number` is Python's `float()` parse wrapped in a try/except; the model
   takes it as a parameter `isNumber` and only ever relies on the handful of
   facts collected in `KeypadParsing`.
 - `Calculator.calculate` is Python's `eval` of the equation text, followed by
   `str()` of the result in `GUI.calculate`; the model takes it as a parameter
   `calculate` that says which of three things happened.
 */
module Engine {

  /** What `str(Calculator.calculate(equation))` can come to. */
  datatype Evaluation =
    | Value(text: string)          // eval returned; `text` is str() of the result
    | SyntaxError                  // the one exception GUI.calculate swallows
    | Raised(exception: string)    // any other exception, e.g. ZeroDivisionError

  /** The foreign collaborators of the GUI's logic. */
  datatype Env = Env(isNumber: string -> bool, calculate: string -> Evaluation)

  /** The symbols the keypad sends to `click_operator`. */
  predicate IsOperatorSymbol(t: string) {
    t == "+" || t == "-" || t == "*" || t == "/" || t == "." || t == "%"
  }

  /** A single decimal digit, as sent by the digit buttons. */
  predicate IsDigit(t: string) {
    |t| == 1 && '0' <= t[0] <= '9'
  }

  /** What `float()` is known to do on the keypad's own button values:
      every single digit parses, and none of the operator symbols does. */
  predicate KeypadParsing(isNumber: string -> bool) {
    && isNumber("0") && isNumber("1") && isNumber("2") && isNumber("3") && isNumber("4")
    && isNumber("5") && isNumber("6") && isNumber("7") && isNumber("8") && isNumber("9")
    && !isNumber("+") && !isNumber("-") && !isNumber("*") && !isNumber("/")
    && !isNumber(".") && !isNumber("%")
  }

  /** Under `KeypadParsing`, a token is numeric exactly when it is a digit,
      among the tokens the keypad can send. */
  lemma KeypadTokenParsing(isNumber: string -> bool, t: string)
    requires KeypadParsing(isNumber)
    requires IsDigit(t) || IsOperatorSymbol(t)
    ensures isNumber(t) <==> IsDigit(t)
  {
    if IsDigit(t) {
      var c := t[0];
      assert t == [c];
      if c == '0' { assert t == "0"; }
      else if c == '1' { assert t == "1"; }
      else if c == '2' { assert t == "2"; }
      else if c == '3' { assert t == "3"; }
      else if c == '4' { assert t == "4"; }
      else if c == '5' { assert t == "5"; }
      else if c == '6' { assert t == "6"; }
      else if c == '7' { assert t == "7"; }
      else if c == '8' { assert t == "8"; }
      else { assert c == '9'; assert t == "9"; }
    }
  }
}
