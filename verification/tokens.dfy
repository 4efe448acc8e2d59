/**
 The token list `GUI._input` and the two strings derived from it: the
 equation (`GUI.equation`, all tokens joined in order) and the equation
 display text (`GUI.update_equation`, which hides a lone token).
 */
module Tokens {

  /** The last token, `_input[-1]`. */
  function Last(tokens: seq<string>): string
    requires |tokens| > 0
  {
    tokens[|tokens| - 1]
  }

  /** Every token but the last, `_input[:-1]`. */
  function Front(tokens: seq<string>): seq<string>
    requires |tokens| > 0
  {
    tokens[..|tokens| - 1]
  }

  /** `_input[-1] = t`: the same list with its last token replaced. */
  function ReplaceLast(tokens: seq<string>, t: string): (r: seq<string>)
    requires |tokens| > 0
    ensures |r| == |tokens|
    ensures Front(r) == Front(tokens)
    ensures Last(r) == t
  {
    Front(tokens) + [t]
  }

  /** `''.join(tokens)`. */
  function Equation(tokens: seq<string>): (r: string)
    ensures |tokens| == 0 ==> r == ""
    ensures |tokens| == 1 ==> r == tokens[0]
    ensures |tokens| > 0 ==> |Last(tokens)| <= |r|
  {
    if |tokens| == 0 then "" else Equation(Front(tokens)) + Last(tokens)
  }

  /** The text `update_equation` writes: the equation once there are at
      least two tokens, nothing before that. */
  function EquationText(tokens: seq<string>): (text: string)
    ensures text == "" || text == Equation(tokens)
    ensures |tokens| > 1 ==> text == Equation(tokens)
    ensures |tokens| <= 1 ==> text == ""
  {
    if |tokens| > 1 then Equation(tokens) else ""
  }

  /** Joining distributes over concatenation of token lists. */
  lemma {:induction false} EquationAppend(a: seq<string>, b: seq<string>)
    ensures Equation(a + b) == Equation(a) + Equation(b)
  {
    if |b| == 0 {
      assert a + b == a;
    } else {
      assert Front(a + b) == a + Front(b);
      assert Last(a + b) == Last(b);
      EquationAppend(a, Front(b));
    }
  }

  /** Replacing the last token changes only the tail of the equation. */
  lemma EquationReplaceLast(tokens: seq<string>, t: string)
    requires |tokens| > 0
    ensures Equation(ReplaceLast(tokens, t)) == Equation(Front(tokens)) + t
  {
  }

  /** The equation display shows exactly the equation if and only if there
      are at least two tokens or the equation is empty anyway: a lone
      non-empty token is never shown as an equation. */
  lemma EquationTextShowsEquation(tokens: seq<string>)
    ensures EquationText(tokens) == Equation(tokens) <==> |tokens| > 1 || Equation(tokens) == ""
    ensures EquationText(tokens) == "" <==> |tokens| <= 1 || Equation(tokens) == ""
  {
  }
}
