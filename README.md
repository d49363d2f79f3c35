# A verified model of the simple_plots expression parser

simple_plots reads single-line mathematical expressions in one variable `x`
and plots them. The core is `parser.h`:

- a tree of nodes: `Value` literals, a `Variable` leaf that reads the
  plotter's current `x`, and `Op` operation nodes;
- `Parse`, a one-pass scan of the line with an operand stack `values` and
  an operator stack `ops`, in shunting-yard style;
- the lambda `PopOps`, which resolves every pending operator that ranks at
  least a threshold.

On top of the base rank of an operator or function, an opening parenthesis
adds a bias of 5 and a closing one resets it to 0. The bias does not nest.
Named functions (`cos`, `sin`, `tg`, `ctg`, `log`) are binary nodes that add
the function of their right operand to their left operand. The scan pushes a
literal 0 as the intended left operand. On a line outside the grammar below,
another operand can end up there: `cos2x` is `2 + cos(x)`.

This project models that core in Dafny and proves properties of the model.

- `nodes.dfy` (module `Nodes`): the tree as a datatype, the digit-appending
  `Increase`, the `Op` constructor's precedence, and `Evaluate`.
- `parser.dfy` (module `Parser`): the scan as specification functions and as
  the methods behind them.
  - `Reduced` specifies `PopOps`; `Step` specifies one turn of the loop,
    `Scan` the whole loop, and `Parsed` the root `Parse` returns.
  - The methods `PopOps`, `ScanToken` (one loop turn) and `Parse` keep the
    source's `while` loops and stack updates. Each is proved to compute its
    specification function.
- `facts.dfy` (module `ScanFacts`): general properties of the scan.
  - Digit runs read as decimal numbers.
  - Every token has a fixed width.
  - The bias is always 0 or 5 and ranks stay between 1 and 9.
  - Resolving the remaining operators keeps the difference between the
    sizes of the two stacks.
- `grammar.dfy` (module `Grammar`): a grammar of lines on which the scan has
  defined behaviour and leaves exactly one operand, the root. The grammar
  does not constrain parentheses, so it admits nested ones, which the scan
  reads flat (`Examples.NestedParenthesesInGrammar`).
- `examples.dfy` (module `Examples`): concrete lines, with their trees and
  their values, including the non-nesting parentheses and lines the scan
  mishandles.

The functions `Evaluate`, `Reduced`, `PushOperator` and `PushFunction` carry
no contract of their own. What they compute is stated by lemmas next to
them, each with its own row in the table below.

Wherever the C++ has undefined behaviour, the specification functions
return `None`: popping an empty stack, or moving the cursor past the end of
the line. The methods require the corresponding specification result to be
defined. `Grammar.WellFormedParses` shows that every line of the grammar
meets that requirement.

## Model

| member | source | states |
|---|---|---|
| Nodes.FromDigit | parser.h:22 | the literal built from a digit character holds that digit's value, between 0 and 9 |
| Nodes.Increase | parser.h:18-31 | on a literal the old value moves one decimal place up and the digit is added (the result lies between 10 times the old value and that plus 9); any other node is left unchanged |
| Nodes.LeafValues | parser.h:26-40 | `Evaluate` on a literal gives its own value and on the variable leaf the cell's current value |
| Nodes.MakeOperator | parser.h:47-62 | the rank is the base rank plus the bias, stored in a byte (below 256), and the tag is kept |
| Nodes.PrecedenceOrder | parser.h:48-59 | `'` ranks 4, the five functions 3, `*` and `/` 2, anything else 1, each plus the bias; under bias 5 every rank exceeds every unbiased rank |
| Nodes.OperatorDispatch | parser.h:64-78 | `*`, `+`, `-` and `/` combine the values of the two children; `'` is `pow(left, right)`; division by 0 is left to the floating-point library |
| Nodes.FunctionAddsToLeft | parser.h:73-84 | `Evaluate` on a function node gives its left operand's value plus the function of its right operand's, whatever the left operand; `ctg` adds 1/tan |
| Nodes.FunctionWithPlaceholder | parser.h:73-85 | with the placeholder 0 as left child, each function node evaluates to the plain call; `ctg` is `1/tan` |
| Nodes.UnknownTagIsZero | parser.h:87 | a tag outside the dispatch table evaluates to 0 whatever its children |
| Nodes.EvaluateReadsCell | parser.h:37-44 | a variable leaf reads the cell when evaluated: evaluating at `x` equals evaluating the tree with `x` written in |
| Nodes.ClosedTreeIsConstant | parser.h:64-88 | a tree without a variable leaf has the same value for every `x` |
| Parser.PopCount | parser.h:109 | the number of operators popped is at most the number pending |
| Parser.PopCountRun | parser.h:109 | the popped operators are exactly the top run ranking at least the threshold; the one below it ranks lower |
| Parser.PopCountZero | parser.h:204-206 | threshold 0 pops every pending operator |
| Parser.Combine | parser.h:110-120 | one resolution replaces the two top operands by one node, with the top operand as right child and the one below as left child, and leaves the rest of the stack unchanged |
| Parser.ReducedShape | parser.h:108-122 | resolution is undefined exactly when there are too few operands for the operators to pop; otherwise it pops exactly that run, keeps `|values| - |ops|` and leaves the operands below untouched |
| Parser.PushOperatorShape | parser.h:147-156 | an operator push is defined exactly when the resolution before it is; it puts the new operator on top of what was pending, above an operator ranking below the threshold or none, consumes one operand per operator resolved and moves past the character |
| Parser.PopOps | parser.h:108-122 | the loop computes the resolution `Reduced` |
| Parser.Step | parser.h:128-202 | each loop turn moves the cursor forward and never past the end |
| Parser.ScanToken | parser.h:129-201 | the body of the scan loop computes `Step` |
| Parser.Scan | parser.h:128-202 | a defined scan ends with the cursor at the end of the line |
| Parser.Resolved | parser.h:204-206 | after the final resolution the operator stack is empty |
| Parser.Parsed | parser.h:98-209 | the empty line gives the literal 0; otherwise the result is defined exactly when the final resolution is defined and leaves an operand, and it is the top operand |
| Parser.Parse | parser.h:98-209 | the method returns the root `Parsed` specifies, and the literal 0 for the empty line |
| ScanFacts.DecimalAppend | parser.h:28-31 | appending a digit to a digit string multiplies its decimal reading by 10 and adds the digit, as `Increase` does |
| ScanFacts.RunAdvance | parser.h:128-136 | a digit or a space inside a run moves the scan from the state after one prefix of the run to the state after the next |
| ScanFacts.RunScan | parser.h:128-136 | inside a run of digits and spaces, the scan goes on from the state holding the decimal reading of the digits read so far |
| ScanFacts.DigitRunFrom | parser.h:128-136 | from any state outside a literal, a run of digits and spaces pushes one literal equal to the decimal reading of its digits and leaves the operators and the bias unchanged |
| ScanFacts.DigitRun | parser.h:128-136 | a line of digits and spaces parses to one literal equal to the decimal reading of its digits |
| ScanFacts.StepWidth | parser.h:137-187 | each token takes its fixed width (2 for `p` and `t`, 3 for `c`, `s` and `l`, otherwise 1); one that does not fit is undefined |
| ScanFacts.LeafTokens | parser.h:137-146 | `e` pushes e, `x` pushes the variable, and `p` pushes pi and needs a second character |
| ScanFacts.RankInRange | parser.h:48-62 | under bias 0 or 5 every rank lies between 1 and 9 |
| ScanFacts.PushOperatorKeepsRanked | parser.h:147-156 | pushing a binary operator keeps the bias and the pending ranks in range |
| ScanFacts.PushFunctionKeepsRanked | parser.h:157-187 | pushing a function keeps the bias and the pending ranks in range |
| ScanFacts.StepKeepsRanked | parser.h:128-202 | every loop turn keeps the bias at 0 or 5 and the pending ranks between 1 and 9 |
| ScanFacts.ScanKeepsRanked | parser.h:128-202 | the whole scan keeps the bias at 0 or 5 and the pending ranks between 1 and 9 |
| ScanFacts.BiasIsFlat | parser.h:193-198 | whatever the line, the bias ends at 0 or 5; the final resolution leaves as many operands as there were more operands than operators |
| Grammar.PushFunctionShape | parser.h:157-187 | a function push is defined exactly when the token fits and the resolution at 3 plus the bias is defined; it pushes the placeholder 0 over the resolved operands and the named function's operator, if any, over the resolved operators, and moves past the token |
| Grammar.FunctionToken | parser.h:157-187 | a function token resolves what ranks at least 3 plus the bias, pushes the placeholder 0 and the operator its spelling names (none for `c` followed by neither `o` nor `t`), and is defined exactly when it fits and the resolution is defined |
| Grammar.OperatorAgrees | parser.h:147-156 | after a complete operand an operator push is defined and leaves the pushed rank on top |
| Grammar.FunctionAgrees | parser.h:157-187 | at an operand position a function push that pops nothing is defined and leaves the function's rank on top |
| Grammar.StepAgrees | parser.h:128-202 | one token of a well-formed line: the loop turn is defined and the new state matches the grammar |
| Grammar.ScanAgrees | parser.h:128-202 | from a state that matches the grammar, the scan is defined and ends with one more operand than operators |
| Grammar.WellFormedParses | parser.h:98-209 | a well-formed line has defined behaviour and leaves exactly one operand, the root |
| Examples.EmptyLine | parser.h:100-103 | the empty line is the literal 0, which evaluates to 0 |
| Examples.MulBeforeAdd | parser.h:108-122 | `2*3+4` is `(2*3)+4`, value 10 |
| Examples.AddThenMul | parser.h:147-156 | `2+3*4` is `2+(3*4)`, value 14 |
| Examples.LeftAssociative | parser.h:109-120 | `8-3-2` is `(8-3)-2`, value 3 |
| Examples.Power | parser.h:188-192 | `2'3` is `pow(2, 3)` |
| Examples.CosineOfZero | parser.h:157-167 | `cos0` is the placeholder 0 plus `cos(0)` |
| Examples.SineOfX | parser.h:168-174 | `sin x` is `sin` of the variable |
| Examples.FunctionOverOperand | parser.h:157-167 | in `cos2x`, outside the grammar, the cosine node takes `2` as its left operand and `x` as its right one, so the line's value is `2 + cos(x)` |
| Examples.VariableTracksCell | parser.h:37-44 | the tree of `x` gives the cell's current value at each evaluation |
| Examples.SpacedDigits | parser.h:128-136 | `1 2` reads as 12 |
| Examples.Parentheses | parser.h:193-198 | `(1+2)*3` groups the sum, value 9 |
| Examples.NestedParenthesesFlatten | parser.h:193-198 | parentheses do not nest: `(2*(3+4))` is `(2*3)+4`, value 10 |
| Examples.NestedParenthesesInGrammar | parser.h:193-198 | the grammar admits the nested `(2*(3+4))`, which the scan reads flat |
| Examples.UnaryMinusUndefined | parser.h:110-113 | a leading `-` leaves the final resolution without a left operand: undefined |
| Examples.TruncatedPiUndefined | parser.h:140-143 | `p` as the last character moves the cursor past the end: undefined |
| Examples.DiscardedOperand | parser.h:128-146 | `2x` is not rejected: only the top operand `x` is returned, although the line is outside the grammar |

## Left out

- `main.cpp` is not part of this model. It holds the console and drawing
  calls, the reading of lines from standard input, and the sweep over `x`.
  All of that is I/O.
- Floating point is modelled as `real`. This leaves out NaN, infinities and
  rounding, including rounding in digit accumulation and in the constants
  `M_E` and `M_PI`.
- `cos`, `sin`, `tan`, `log`, `pow`, and the result of dividing by 0 are
  fields of an abstract `MathLib` passed to `Evaluate`. Nothing is assumed
  about them.
- Nodes.Evaluate takes the cell's value `x` as a parameter. This replaces
  the `const double&` that `Variable` keeps. Evaluation changes nothing,
  since the tree is a value.
- Shared ownership (`shared_ptr`), `SetLeft` and `SetRight` are not
  modelled. An `Op` waiting on the operator stack is an `Operator` (tag and
  rank). `PopOps` builds the node with its children when it pops it, instead
  of filling the children in place, so two nodes are never shared.
- Nodes.Increase returns a new literal instead of updating `_value` in
  place. The scan replaces the top of the operand stack with it.
- The virtual `Node::Increase` on a non-literal node does nothing.
  Parser.Step only applies `Increase` when a digit run is open, so the top
  is always the literal being read.
- Parser.Parse requires `Defined(line)`, that is, a line on which the scan
  has defined behaviour. Parser.PopOps and Parser.ScanToken require the
  same of their own step. On other lines the C++ pops an empty stack or
  reads past the end, and its result is not determined. The specification
  functions return `None` there instead.
- Grammar.WellFormed is a sufficient condition for defined behaviour, not
  a characterisation. Some lines outside it are still defined, such as
  `2x` in Examples.DiscardedOperand.
