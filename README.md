# RPN calculator evaluation engine, in Dafny

This project models the evaluation engine of a Reverse-Polish-Notation
calculator written in Rust (`src/rpncalculator.rs`) and proves what it
promises. The calculator keeps a stack of numbers. It reads a line of
whitespace-separated tokens. Each token that is a key of its operator
registry runs that operator on the stack. Any other token is parsed as a
number and pushed. The line stops at the first token that fails, and that
error is returned.

The model follows the source's own shape:

- `Tokenizer` (`tokenizer.dfy`) models `str::split_whitespace`, which
  `evaluate` uses. It splits on the Unicode White_Space characters that
  `char::is_whitespace` tests.
- `Operators` (`operators.dfy`) holds the error enum `CalcError`, the
  result `CalcResult` and the operator functions. The two forms of the
  `new_operator!` macro become the two constructors of `Operator`:
  - `Fixed(arity, compute)` receives its operands top first. Its block
    yields a value to push or fails early with an error (`Outcome`).
  - `Raw(run)` receives the whole stack. `run` returns the stack it
    leaves and the result, so a raw operator can change the stack and
    still fail.

  The module also holds the stack object `CalcStack` (the `Vec<f64>` that
  every operator function receives by `&mut`). `ApplyFixed` is the
  function the fixed form of the macro generates, with its read loop and
  its pop loop. `DefaultOperators` builds the map by successive inserts.
- `Calculator` (`calculator.dfy`) holds the class `RpnCalculator`. Its
  fields are `stack` and `operators`. It has the two constructors, `Top`,
  `Evaluate` with its token loop, `ParseToken` and `ParseAndPush`. Each
  method is proved against a specification function: `Step` for one token
  and `EvalTokens` for a token sequence. The lemmas about those functions
  state what a line does.
- `Scenarios` (`scenarios.dfy`) proves the source's unit tests as
  statements about every stack and every parser, except for the numeric
  values that the arithmetic tests expect (see "## Left out"). Client
  methods drive the class the way the tests do, including through both
  constructors.

Numbers are abstract. The type parameter `V` stands for `f64`. The four
arithmetic operations are a parameter (`Arithmetic`). Parsing a number
(`str::parse::<f64>`) is the calculator's `parse: string -> Option<V>`,
supplied when the calculator is made.

`top` returns `Option<&f64>`, which is `None` on an empty stack.

Nothing is undone when a token fails (lines 100-105, 110-114 and 182):

- A raw operator's changes to the stack stand.
- A fixed-arity operator whose block fails after its operands are popped
  leaves them popped.

So a failed line is guaranteed to leave the stack as the failing token
found it only when that token is a number that does not parse or a
fixed-arity operator short of operands. Other operators may happen to leave
it unchanged too: the `q` operator does, and so does an arity-0 operator
whose block fails. `FirstFailureDecides` states this case by case.

## Model

| member | source | states |
|---|---|---|
| `Tokenizer.Split` | src/rpncalculator.rs:168 | every token produced is non-empty and holds no whitespace |
| `Tokenizer.Tokens` | src/rpncalculator.rs:168 | `split_whitespace` yields only non-empty, whitespace-free tokens |
| `Tokenizer.TokensKeepVisible` | src/rpncalculator.rs:168 | the tokens laid end to end are exactly the line's non-whitespace characters: splitting drops whitespace and nothing else |
| `Tokenizer.TokensEmptyIffBlank` | src/rpncalculator.rs:168-172 | a line yields no tokens if and only if it is empty or all whitespace |
| `Tokenizer.TokensOfJoin` | src/rpncalculator.rs:168 | splitting tokens joined by single spaces gives back exactly those tokens |
| `Tokenizer.TokensSplitAt` | src/rpncalculator.rs:168 | any whitespace character separates tokens: the tokens of `a c b`, with `c` whitespace, are the tokens of `a` followed by the tokens of `b` |
| `Tokenizer.TokensOfWord` | src/rpncalculator.rs:168 | a non-empty line without whitespace is exactly one token, itself |
| `Operators.Operands` | src/rpncalculator.rs:88-97 | the operand list has the arity's length; operand k is the value k places below the top, so the first name binds to the top |
| `Operators.FixedOperator` | src/rpncalculator.rs:86-106 | on a stack shorter than its arity, a fixed-arity operator fails with `NotEnoughOperands` and leaves the stack unchanged; otherwise the top n values are popped and the lower `len - n` kept, and it succeeds exactly when its block yields a value, which is pushed (new length `len - n + 1`); a block that fails returns its own error with the operands gone |
| `Operators.ApplyFixed` | src/rpncalculator.rs:87-107 | the generated function (read loop that checks before popping, pop loop, then the block's value pushed or its error returned) leaves exactly the stack and result that `Apply` of the fixed operator gives |
| `Operators.Invoke` | src/rpncalculator.rs:182 | the call `operator(&mut self.stack)` has exactly `Apply`'s effect, for either form of operator (lines 110-114 for the raw form); a raw operator's stack change stands even when it fails |
| `Operators.BinaryOp` | src/rpncalculator.rs:137-140 | an operator declared with names `[y, x]` has arity 2, and on operands `[top, second]` yields `g(second, top)` |
| `Operators.BinaryOpOnStack` | src/rpncalculator.rs:137-140 | on `[.., x, y]` a binary operator leaves `[.., g(x, y)]`; on fewer than two values it fails with `NotEnoughOperands` and changes nothing |
| `Operators.DefaultOperators` | src/rpncalculator.rs:135-142 | the four successive inserts build exactly the default registry |
| `Operators.DefaultRegistryShape` | src/rpncalculator.rs:135-142 | the default registry has exactly the keys `+ - * /`; each is arity 2 and computes `second-from-top OP top` |
| `Operators.QuitOperator` | src/bin/rpncalculator/main.rs:15 | the `q` operator never changes the stack and always returns `Quit` |
| `Operators.DropOperator` | src/rpncalculator.rs:293 | the raw operator `s.pop(); Ok(())` always succeeds and removes the top value if there is one |
| `Calculator.EvalAppend` | src/rpncalculator.rs:169-175 | evaluating `a + b` is evaluating `a`, then, only if that succeeded, `b` on the stack `a` left |
| `Calculator.FailureSkipsRest` | src/rpncalculator.rs:173 | once a prefix of the line has failed, the remaining tokens are never run and the result is that prefix's |
| `Calculator.FirstFailureDecides` | src/rpncalculator.rs:167-177 | if the first i tokens succeed and token i fails, the line returns that token's error unchanged and that token's stack; for a number that does not parse or a fixed-arity operator short of operands that is the stack the first i tokens left, and for a fixed-arity operator whose block failed it is that stack less its top `arity` values |
| `Calculator.FailureHasFirstFailingToken` | src/rpncalculator.rs:167-177 | a failing line has a first failing token: all tokens before it succeeded and the line's outcome is that token's |
| `Calculator.SuccessIffEveryTokenSucceeds` | src/rpncalculator.rs:169-176 | a line succeeds if and only if every token succeeds on the stack the tokens before it left |
| `Calculator.KeyIsNeverParsed` | src/rpncalculator.rs:179-186 | a registry key always runs its operator, whatever the number parser would say about it |
| `Calculator.LiteralToken` | src/rpncalculator.rs:188-192 | a non-key token that does not parse fails with `ParsingError` and pushes nothing; one that parses pushes exactly its value, which becomes the top |
| `Calculator.BlankLineIsNoOp` | src/rpncalculator.rs:167-177 | an empty or whitespace-only line succeeds and leaves the stack unchanged |
| `Calculator.InsertOnlyAffectsItsSymbol` | src/rpncalculator.rs:108 | after inserting under a symbol, that symbol runs the new operator (replacing any old binding or number reading), and any line not using the symbol evaluates exactly as before |
| `Calculator.RpnCalculator.constructor` | src/rpncalculator.rs:152-154 | `new` starts with an empty stack (`Top` is `None`) and the default registry |
| `Calculator.RpnCalculator.WithOperators` | src/rpncalculator.rs:157-159 | `new_with_operators` starts with an empty stack and exactly the given registry |
| `Calculator.RpnCalculator.Top` | src/rpncalculator.rs:162-164 | `top` is `None` exactly on an empty stack, otherwise the last value, and reads without changing anything |
| `Calculator.RpnCalculator.AddOperator` | src/rpncalculator.rs:108 | inserting into the calculator's registry binds the symbol to the operator, replacing any old binding, and leaves the stack unchanged |
| `Calculator.RpnCalculator.Evaluate` | src/rpncalculator.rs:167-177 | the token loop leaves exactly the stack and result of `EvalTokens` on the line's tokens, and changes nothing but the stack |
| `Calculator.RpnCalculator.ParseToken` | src/rpncalculator.rs:179-186 | one token has exactly `Step`'s effect: lookup before parse |
| `Calculator.RpnCalculator.ParseAndPush` | src/rpncalculator.rs:188-192 | a token that parses is pushed and the result is `Ok`; otherwise `ParsingError` and the stack is unchanged |
| `Scenarios.SingleLiteralLine` | src/rpncalculator.rs:225-237 | a line holding one non-operator token pushes the number it spells, or fails with `ParsingError` leaving the stack as it was |
| `Scenarios.DefaultBinaryLine` | src/rpncalculator.rs:323-336 | with the defaults, `a b OP` pushes `a OP b` (so `6 2 -` is 4 and `6 2 /` is 3) on top of the unchanged stack |
| `Scenarios.LoneOperatorUnderflows` | src/rpncalculator.rs:299-311 | a default operator alone on a line, with fewer than two values, fails with `NotEnoughOperands` and pops nothing |
| `Scenarios.ExtensionComposes` | src/rpncalculator.rs:281-288 | with an arity-0 `?` pushing ten added to the defaults, `? 2 +` leaves `ten + 2` on top |
| `Scenarios.RawOperatorLine` | src/rpncalculator.rs:290-297 | with a raw `?` that pops, `2 3 ?` leaves 2 on top |
| `Scenarios.QuitStopsTheLine` | src/bin/rpncalculator/main.rs:15-21 | with `q` bound to the quit operator, a line ends at its first `q` with `Quit`, the stack the earlier tokens left, and nothing after it run |
| `Scenarios.ConstantOperator` | src/rpncalculator.rs:242 | the operator `X` declared with `[_x, _y]` and `{0.0}` has arity 2 and yields `zero` for any two operands |
| `Scenarios.PairThenConstant` | src/rpncalculator.rs:239-247 | with `X` bound to that operator next to the defaults, a line `p q` of two numbers pushes both, with `q` on top, and a following line `X` replaces the two by `zero` |
| `Scenarios.ConstantOperatorCalculator` | src/rpncalculator.rs:239-247 | a new calculator with `X` inserted returns `Ok` for `2.5 3.2` with 3.2 on top, then `Ok` for `X` with `zero` on top |
| `Scenarios.ConstructionTimeOperators` | src/rpncalculator.rs:267-279 | a calculator built by `new_with_operators` from a registry holding only a raw `?` that pushes ten returns `Ok` for `?` and has ten on top |
| `Scenarios.ExtendedCalculator` | src/rpncalculator.rs:281-288 | a new calculator with `?` inserted returns `Ok` for `? 2 +` and then has `ten + 2` on top |
| `Scenarios.UnderflowKeepsStack` | src/rpncalculator.rs:299-311 | on a new calculator `1.0` succeeds, a following `+` fails with `NotEnoughOperands`, and 1.0 is still on top |

## Left out

- IEEE-754 arithmetic and `str::parse::<f64>`: numbers are the abstract type `V`, the four operations are parameters, and parsing is an opaque partial function. The expected numbers of the arithmetic tests therefore have no counterpart: `5.7` (compared exactly with `assert_eq!`, line 253) and the `check_evaluation` results, checked only against a one-sided bound, `expected - result < 0.00001` (line 320), so a larger result also passes (lines 313-341). Only the operand order of `a b OP` is proved, in `Scenarios.DefaultBinaryLine`.
- The `IOError` variant and the `From<io::Error>` conversion (lines 201-205): they serve only the terminal front end.
- The terminal front end in `src/bin/rpncalculator/main.rs` (reading lines, flushing, printing, leaving the loop): this is input and output. Only its `q` operator is modelled (`QuitOperator`).
- Macro expansion: the two forms of `new_operator!` are modelled as the two `Operator` constructors, plus the map insertion.
- `BTreeMap` order: the registry is a Dafny `map`. Nothing in the engine depends on iteration order.
- Operators.FixedOperator: a fixed-form block either yields a value to push or returns an error. The model does not cover a block that panics, or one that leaves early with `return Ok(())` after the pop loop (lines 100-105), which would succeed with the operands gone and nothing pushed. The macro's documentation (line 48) promises a value to push, and every operator the source declares yields one.
- Fixed-arity operators carry a partial function of their operands, together with the requirement (`WellFormed`) that it accepts every operand list of the declared length. A Rust `fn` with n named operands meets that by construction.
