# calpylator: the keypad state machine

A model of the logic inside the `GUI` class of calpylator, a tkinter desktop
calculator, with the widgets taken away. The calculator's state is three
things: the token list `_input` (the equation being built, one string per
number or operator), the display string `value`, and the append-only
`history` of `(equation, value)` records. Every button click runs one
handler (`click_digit`, `click_operator`, `equals`, `clear`, `clear_entry`,
`backspace`, `square_root`, `square`, `inverse`), chosen by the routing rule
of `create_button`.

The model is functional: `Gui.State` is an immutable record and each handler
is a pure transition function. A handler whose Python body can raise returns
a `Gui.Step`, the state as far as the body got before the exception plus
which exception it was. The tkinter main loop reports an exception from a
callback and keeps running, so `Keypad.PressAll` carries on from that state.

The two calls into code the calculator does not own are parameters, bundled
in `Engine.Env`:

- `isNumber` stands for `is_number`, Python's `float()` parse. The model
  relies only on `Engine.KeypadParsing`: each single digit `0`..`9` parses,
  and none of `+ - * / . %` does.
- `calculate` stands for `str(Calculator.calculate(equation))`, Python's
  `eval`. It comes back as `Value(text)`, `SyntaxError` (the one exception
  `GUI.calculate` catches) or `Raised(name)` (any other exception, which
  escapes the handler).

Modules: `Engine` (the two parameters), `Tokens` (the equation and its
display text), `Gui` (state and handlers), `Keypad` (buttons and routing),
`Properties` (lemmas over several handlers), `Findings` (two defects and
their corrections).

Behaviour of the code worth knowing:

- The history gets an entry on `=` and at start-up only; `click_operator`
  runs `calculate` but never `update_history`.
- Evaluation is Python's `eval`, so it is the `calculate` parameter.
  Division by zero raises a ZeroDivisionError that no handler catches
  (`Raised`).
- `.` and `%` are routed to `click_operator`, because `float()` rejects them.
- An operator click with empty input reads `history[-1]`. Start-up always
  writes one entry, so this never fails on a reachable state
  (`Properties.OperatorSeedAvailable`). The model still keeps the
  empty-history branch as an `IndexError`.

## Model

| member | source | states |
|---|---|---|
| Engine.KeypadTokenParsing | calpylator.py:288-294 | among the keypad's own values, a token parses as a number exactly when it is one digit |
| Tokens.Equation | calpylator.py:35-37 | the equation of no tokens is empty, of one token is that token, and always contains at least as many characters as the last token |
| Tokens.EquationAppend | calpylator.py:35-37 | the equation of a concatenation of token lists is the concatenation of their equations |
| Tokens.EquationReplaceLast | calpylator.py:35-37 | replacing the last token changes only the tail of the equation |
| Tokens.EquationText | calpylator.py:111-116 | the equation display is either empty or the equation: the equation with two or more tokens, empty with one or none |
| Tokens.EquationTextShowsEquation | calpylator.py:111-116 | the equation display equals the equation iff there are two or more tokens or the equation is empty; it is empty iff there is at most one token or the equation is empty |
| Gui.ResetValue | calpylator.py:140-142 | `reset_value` sets the value to `0` and touches neither tokens nor history |
| Gui.ResetInput | calpylator.py:144-146 | `reset_input` empties the token list and touches neither value nor history |
| Gui.UpdateHistory | calpylator.py:135-138 | appends exactly one record of the current equation and value; earlier records, tokens and value unchanged |
| Gui.Initial | calpylator.py:22-33 | start-up leaves no tokens, value `0` and the one history record `("", "0")` |
| Gui.Calculate | calpylator.py:128-133 | a result becomes the value; a SyntaxError leaves the state alone; any other exception escapes with the state unchanged; tokens and history never change |
| Gui.ClickDigit | calpylator.py:39-48 | a numeric last token becomes last+digit with length and earlier tokens unchanged; otherwise the digit is appended; the value is the new last token; history unchanged |
| Gui.Seeded | calpylator.py:55-56 | the list `click_operator` works on is never empty: the input when there is one, otherwise the single token `history[-1].value` |
| Gui.ClickOperator | calpylator.py:51-64 | empty input is seeded from the latest history value; after a number the operator is appended, otherwise it replaces the last token; the last token is the operator; value and outcome follow `calculate`; with no input and no history it raises IndexError and changes nothing |
| Gui.Equals | calpylator.py:66-71 | unless evaluation raises: exactly one record (equation before the reset, new value) is appended, earlier records kept, input emptied; if it raises, nothing changes |
| Gui.Clear | calpylator.py:73-78 | whatever the state: no tokens, value `0`, history kept |
| Gui.ClearEntry | calpylator.py:80-86 | removes exactly the last token when there is one, is a no-op on an empty list |
| Gui.Backspace | calpylator.py:88-98 | value first reset to `0`; a non-numeric or one-character last token is dropped; a longer numeric one loses its last character and becomes the value; an empty input raises IndexError after the reset |
| Gui.DropLastChar | calpylator.py:96 | Python's `t[:-1]`: empty stays empty, otherwise the text minus its last character, which put back gives the original |
| Gui.SquareRoot | calpylator.py:217-220 | a numeric last token becomes `math.sqrt(tok)`, otherwise nothing changes; count, earlier tokens, value and history kept |
| Gui.WrapLast | calpylator.py:222-228 | the last token, whatever it is, is wrapped as open+tok+close (`(tok)**2` for `square`, `1/(tok)` for `inverse`), with count, earlier tokens, value and history kept; an empty input raises IndexError and changes nothing |
| Gui.Square | calpylator.py:222-224 | `square` makes the last token `(tok)**2` with count, earlier tokens, value and history kept; an empty input raises IndexError and changes nothing |
| Gui.Inverse | calpylator.py:226-228 | `inverse` makes the last token `1/(tok)` with count, earlier tokens, value and history kept; an empty input raises IndexError and changes nothing |
| Keypad.ButtonValue | calpylator.py:241 | the value a button sends is its non-empty replacement when it has one, otherwise its label |
| Keypad.Route | calpylator.py:241-257 | a click runs the button's own command exactly when it has one; otherwise it reaches `click_digit` with a value that parses as a number or `click_operator` with one that does not, the value being the button's |
| Keypad.Perform | calpylator.py:205 | the `±` callback raises TypeError and changes nothing; only `equals` can change the history; digit clicks, `√`, `CE` and `C` never raise; an IndexError can only come from an operator click, `x²`, `1/x` or `⌫` |
| Keypad.Press | calpylator.py:241-257 | a click on `±` raises TypeError with the state unchanged; a command-less button runs `click_digit` with its value when that parses, `click_operator` with it otherwise |
| Keypad.PressAll | calpylator.py:257 | no clicks leave the state alone; one click is that button's callback, keeping the state it left even when it raised |
| Keypad.PressAllAppend | calpylator.py:257 | a run of clicks split in two is the second part run from the state the first part left, exceptions included |
| Keypad.Buttons | calpylator.py:184-209 | the 24 buttons in grid order, with names, labels, the `/ * -` replacements and the commands of `√ x² 1/x CE C ⌫ ± =` |
| Keypad.ButtonValues | calpylator.py:184-209 | every command-less button sends one digit or one operator symbol; `÷ × −` send `/ * -` |
| Keypad.KeypadRouting | calpylator.py:241-257 | a button with a command runs it; digit buttons reach `click_digit`; every other button, `.` and `%` included, reaches `click_operator` |
| Properties.ClickDigitExtendsEquation | calpylator.py:39-48 | in both branches a digit click appends the digit to the equation |
| Properties.TypeDigitsExtendsEquation | calpylator.py:39-48 | a run of digit clicks appends the joined digits to the equation and keeps the history |
| Properties.DigitsAccumulate | calpylator.py:41-48 | while each intermediate token parses, consecutive digits accumulate onto the one last token; list length and earlier tokens kept; the value shows the token |
| Properties.ClickOperatorNeverStacks | calpylator.py:57-62 | `click_operator` preserves "no two neighbouring non-numeric tokens"; the token before the operator is a number |
| Properties.ClearIdempotent | calpylator.py:73-78 | `clear` twice equals `clear` once, and the equation display is empty |
| Properties.ClearEntryUndoesNewDigit | calpylator.py:80-86 | `clear_entry` removes a digit click that started a new token |
| Properties.ClearEntryUndoesOperator | calpylator.py:80-86 | `clear_entry` removes an operator appended after a number |
| Properties.BackspaceUndoesDigit | calpylator.py:88-98 | `backspace` after a one-character digit click that extended a number restores the tokens and shows the old token |
| Properties.UnaryRewritesLastOperand | calpylator.py:217-228 | each unary button replaces only the last operand's text in the equation by its wrapped form |
| Properties.PressHistory | calpylator.py:66-71 | only a click routed to `equals` changes the history, and then by one record of the pre-reset equation and the new value |
| Properties.PressAllExtendsHistory | calpylator.py:135-138 | over any run of clicks the history only grows: the old history is a prefix of the new |
| Properties.OperatorSeedAvailable | calpylator.py:55-56 | after any clicks from start-up the history is non-empty, starts with `("", "0")`, and the operator seed lookup never raises |
| Properties.SequenceRoutes | calpylator.py:241-257 | on the keypad, `7`, `3`, `1`, `5` reach `click_digit`, `+` and `.` reach `click_operator`, `=` runs `equals` |
| Properties.SevenPlusThree | calpylator.py:39-71 | keys `7 + 3 =` from start-up: value `10`, history gains `("7+3", "10")`, input and equation display empty |
| Properties.DecimalPointByConcatenation | calpylator.py:241-247 | keys `1 . 5` on an empty input give the three tokens `1`, `.`, `5` with equation `1.5`, and the display shows `5` |
| Findings.BackspaceAfterEqualsRaises | calpylator.py:92 | as written, `backspace` right after a completed `=` raises IndexError |
| Findings.GuardedBackspace | calpylator.py:88-98 | corrected `backspace` never raises; on an empty input it only resets the value to `0` |
| Findings.GuardedBackspaceAgrees | calpylator.py:88-98 | the correction equals the original on every non-empty input |
| Findings.SquareRootThenOperatorDropsOperand | calpylator.py:217-220 | as written, when `math.sqrt(tok)` does not parse, the next operator replaces it, so the operand is lost (`4 √ +` leaves `+`) |
| Findings.SquareRootThenOperatorStacks | calpylator.py:58-62 | as written, an operator after `√` on a number that follows an operator lands next to that operator, breaking the alternation |
| Findings.OnePlusTwoRootMinus | calpylator.py:58-62 | as written, `1 + 2 √ -` turns the alternating `["1", "+", "2"]` into `["1", "+", "-"]`, equation `1+-` |
| Findings.OperandAwareClickOperator | calpylator.py:51-64 | corrected `click_operator`: append after any operand (number or unary form), replace otherwise; seeding, value and outcome as the original |
| Findings.UnaryOperandSurvivesOperator | calpylator.py:217-228 | with the correction, an operand built by √, x² or 1/x is kept and the operator follows it |
| Findings.OperandAwareNeverStacks | calpylator.py:57-62 | with the correction, "no two neighbouring non-operands" is preserved and the token before the operator is an operand |
| Findings.OnePlusTwoRootMinusCorrected | calpylator.py:58-62 | with the correction, `1 + 2 √ -` gives `["1", "+", "math.sqrt(2)", "-"]` |
| Findings.OperandAwareAgrees | calpylator.py:58-62 | the correction equals the original whenever the last token is not a unary form |

## Left out

- The tkinter presentation: colours, fonts, styles, the grid layout in `init_buttons`, widget construction in `create_button` and `create_text`, `write`, `update`, `update_value`, `init_displays` and the `HoverButton` class. Both displays are functions of the state here (`Tokens.EquationText` and `value`).
- Display refresh timing: `square_root`, `square` and `inverse` do not call `update`, so the widgets show the old text until the next click. The model has no widgets, only the state.
- `Calculator.calculate` internals: `eval` of arbitrary Python text, its side effects, and `str()` formatting of the result. It is the `calculate` parameter.
- `is_number` internals: `float()` with exponents, `inf`/`nan` and surrounding whitespace. It is the `isNumber` parameter, constrained only by `Engine.KeypadParsing`.
- Properties.ClickOperatorNeverStacks: holds for `click_operator` alone. The program as a whole does not keep the alternation: its hypothesis fails once `√`, `x²` or `1/x` has run, and `Findings.OnePlusTwoRootMinus` shows the next operator then stacks.
- Properties.DigitsAccumulate: takes as a hypothesis that every intermediate token parses as a number, because `float()` is abstract here. Typing onto a token such as `inf` breaks that hypothesis.
- The `±` button: its command `lambda x: -x` is called without an argument. The model routes it to `Negate`, and `Keypad.Perform` states that it raises a TypeError and changes nothing. It does not model negation.
- The keypad dispatch `Keypad.Press` keeps the handlers as written. The corrected definitions in `Findings` are stated and proved next to the originals, and are not wired into the dispatch.

## Findings

| source | as written | input that shows it | evidently intended | confidence | as-written member | corrected member |
|---|---|---|---|---|---|---|
| calpylator.py:92 | `self._input and not is_number(...) or len(self._input[-1]) == 1` groups as `(A and not B) or C`, so an empty input reaches `self._input[-1]` and raises IndexError | `=` then `⌫` | with nothing to shorten, clear the (absent) last entry, as `clear_entry`'s own guard allows | high, not executed | Findings.BackspaceAfterEqualsRaises | Findings.GuardedBackspace |
| calpylator.py:58-62 | `click_operator` treats any token `float()` rejects as an operator to replace, including `math.sqrt(4)`, `(4)**2` and `1/(4)` | `4`, `√`, `+` leaves `["+"]`; `1`, `+`, `2`, `√`, `−` leaves `1+-`, two operators side by side | the operand built by a unary button is kept and the operator is appended: `["math.sqrt(4)", "+"]`, `1+math.sqrt(2)-` | medium, not executed | Findings.SquareRootThenOperatorDropsOperand, Findings.OnePlusTwoRootMinus | Findings.OperandAwareClickOperator, Findings.OperandAwareNeverStacks |
