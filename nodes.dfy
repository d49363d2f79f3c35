/** The expression tree of the plotter: literal leaves, the variable leaf and
    binary operation nodes, with their precedence ranks and their evaluation. */
module Nodes {

  /** The values of the C library's M_E and M_PI macros. */
  const E: real := 2.7182818284590452354
  const Pi: real := 3.14159265358979323846

  /** An operator node before its operands are attached: its tag and the
      rank it was given when it was created. The rank is stored in an
      unsigned byte, hence a nat below 256. */
  datatype Operator = Operator(tag: string, precedence: nat)

  /** A node of the expression tree. An `Op` owns its two operands; the named
      functions are binary too. The scan pushes a literal 0 as the intended
      left operand of a function, but a line outside the grammar of module
      `Grammar` can leave another operand there. */
  datatype Node =
    | Value(value: real)
    | Variable
    | Op(op: Operator, left: Node, right: Node)

  /** The library functions the evaluator calls. They are left abstract:
      `divByZero(a)` is whatever the floating-point division `a / 0` gives. */
  datatype MathLib = MathLib(
    cos: real -> real,
    sin: real -> real,
    tan: real -> real,
    log: real -> real,
    pow: (real, real) -> real,
    divByZero: real -> real)

  predicate IsDigit(c: char) {
    '0' <= c <= '9'
  }

  /** `digit - '0'`, the numeric value of a digit character. */
  function DigitValue(d: char): int {
    d as int - '0' as int
  }

  /** The literal built from one digit character: the digit appended to an
      empty literal, a value between 0 and 9. */
  function FromDigit(d: char): (r: Node)
    ensures IsDigit(d) ==> r.Value? && 0.0 <= r.value <= 9.0
  {
    Value(DigitValue(d) as real)
  }

  /** Appends one decimal digit to a literal: the old value moves one
      decimal place up. Every other node ignores it. */
  function Increase(n: Node, d: char): (r: Node)
    ensures r.Value? <==> n.Value?
    ensures !n.Value? ==> r == n
    ensures n.Value? && IsDigit(d) ==> n.value * 10.0 <= r.value <= n.value * 10.0 + 9.0
  {
    match n
    case Value(v) => Value(v * 10.0 + DigitValue(d) as real)
    case _ => n
  }

  predicate IsFunctionTag(tag: string) {
    tag == "cos" || tag == "sin" || tag == "log" || tag == "ctg" || tag == "tg"
  }

  /** The rank an operator has outside parentheses. */
  function BaseRank(tag: string): int {
    if tag == "'" then 4
    else if IsFunctionTag(tag) then 3
    else if tag == "*" || tag == "/" then 2
    else 1
  }

  /** The operator node's constructor: its rank is the base rank plus the
      current parenthesis bias, truncated to an unsigned byte. */
  function MakeOperator(tag: string, skobka: int): (o: Operator)
    ensures o.tag == tag && o.precedence < 256
    ensures 0 <= BaseRank(tag) + skobka < 256 ==> o.precedence == BaseRank(tag) + skobka
  {
    Operator(tag, (BaseRank(tag) + skobka) % 256)
  }

  /** Floating-point division: the real quotient when the divisor is not 0. */
  function Divide(a: real, b: real, lib: MathLib): real {
    if b != 0.0 then a / b else lib.divByZero(a)
  }

  /** The value of a tree when the variable cell holds `x`. */
  function Evaluate(n: Node, x: real, lib: MathLib): real {
    match n
    case Value(v) => v
    case Variable => x
    case Op(op, left, right) =>
      var a := Evaluate(left, x, lib);
      var b := Evaluate(right, x, lib);
      if op.tag == "*" then a * b
      else if op.tag == "+" then a + b
      else if op.tag == "-" then a - b
      else if op.tag == "/" then Divide(a, b, lib)
      else if op.tag == "cos" then a + lib.cos(b)
      else if op.tag == "sin" then a + lib.sin(b)
      else if op.tag == "'" then lib.pow(a, b)
      else if op.tag == "log" then a + lib.log(b)
      else if op.tag == "ctg" then a + Divide(1.0, lib.tan(b), lib)
      else if op.tag == "tg" then a + lib.tan(b)
      else 0.0
  }

  /** A literal gives its own value and the variable leaf the cell's. */
  lemma LeafValues(v: real, x: real, lib: MathLib)
    ensures Evaluate(Value(v), x, lib) == v
    ensures Evaluate(Variable, x, lib) == x
  {
  }

  predicate HasVariable(n: Node) {
    match n
    case Value(_) => false
    case Variable => true
    case Op(_, left, right) => HasVariable(left) || HasVariable(right)
  }

  /** The tree with every variable leaf replaced by the literal `x`. */
  function Bind(n: Node, x: real): (r: Node)
    ensures !HasVariable(r)
  {
    match n
    case Value(_) => n
    case Variable => Value(x)
    case Op(op, left, right) => Op(op, Bind(left, x), Bind(right, x))
  }

  /** A variable leaf reads the cell at evaluation time: evaluating a tree at
      `x` is evaluating the tree in which `x` has been written in. */
  lemma {:induction false} EvaluateReadsCell(n: Node, x: real, y: real, lib: MathLib)
    ensures Evaluate(n, x, lib) == Evaluate(Bind(n, x), y, lib)
  {
    match n
    case Value(_) =>
    case Variable =>
    case Op(op, left, right) =>
      EvaluateReadsCell(left, x, y, lib);
      EvaluateReadsCell(right, x, y, lib);
  }

  /** A tree without a variable leaf has the same value whatever the cell holds. */
  lemma {:induction false} ClosedTreeIsConstant(n: Node, x: real, y: real, lib: MathLib)
    requires !HasVariable(n)
    ensures Evaluate(n, x, lib) == Evaluate(n, y, lib)
  {
    match n
    case Value(_) =>
    case Variable =>
    case Op(op, left, right) =>
      ClosedTreeIsConstant(left, x, y, lib);
      ClosedTreeIsConstant(right, x, y, lib);
  }

  /** The ranks order the operators: power over functions over `*` and `/`
      over everything else, and a bias of 5 lifts every rank above every
      unbiased one. */
  lemma PrecedenceOrder(tag: string, other: string)
    ensures forall b | b == 0 || b == 5 ::
      MakeOperator("'", b).precedence == 4 + b &&
      MakeOperator("*", b).precedence == MakeOperator("/", b).precedence == 2 + b &&
      MakeOperator("+", b).precedence == MakeOperator("-", b).precedence == 1 + b
    ensures forall b | b == 0 || b == 5 ::
      IsFunctionTag(tag) ==> MakeOperator(tag, b).precedence == 3 + b
    ensures forall b | b == 0 || b == 5 ::
      1 + b <= MakeOperator(tag, b).precedence <= 4 + b
    ensures MakeOperator(tag, 5).precedence > MakeOperator(other, 0).precedence
  {
  }

  lemma ProductDispatch(p: nat, left: Node, right: Node, x: real, lib: MathLib)
    ensures Evaluate(Op(Operator("*", p), left, right), x, lib) == Evaluate(left, x, lib) * Evaluate(right, x, lib)
  {
  }

  lemma SumDispatch(p: nat, left: Node, right: Node, x: real, lib: MathLib)
    ensures Evaluate(Op(Operator("+", p), left, right), x, lib) == Evaluate(left, x, lib) + Evaluate(right, x, lib)
  {
  }

  lemma DifferenceDispatch(p: nat, left: Node, right: Node, x: real, lib: MathLib)
    ensures Evaluate(Op(Operator("-", p), left, right), x, lib) == Evaluate(left, x, lib) - Evaluate(right, x, lib)
  {
  }

  lemma QuotientDispatch(p: nat, left: Node, right: Node, x: real, lib: MathLib)
    ensures Evaluate(Op(Operator("/", p), left, right), x, lib) == Divide(Evaluate(left, x, lib), Evaluate(right, x, lib), lib)
  {
  }

  lemma PowerDispatch(p: nat, left: Node, right: Node, x: real, lib: MathLib)
    ensures Evaluate(Op(Operator("'", p), left, right), x, lib) == lib.pow(Evaluate(left, x, lib), Evaluate(right, x, lib))
  {
  }

  /** The arithmetic operators combine their evaluated operands; `'` raises
      the left operand to the power of the right. */
  lemma OperatorDispatch(p: nat, left: Node, right: Node, x: real, lib: MathLib)
    ensures var a, b := Evaluate(left, x, lib), Evaluate(right, x, lib);
      Evaluate(Op(Operator("*", p), left, right), x, lib) == a * b &&
      Evaluate(Op(Operator("+", p), left, right), x, lib) == a + b &&
      Evaluate(Op(Operator("-", p), left, right), x, lib) == a - b &&
      Evaluate(Op(Operator("/", p), left, right), x, lib) == Divide(a, b, lib) &&
      Evaluate(Op(Operator("'", p), left, right), x, lib) == lib.pow(a, b)
  {
    ProductDispatch(p, left, right, x, lib);
    SumDispatch(p, left, right, x, lib);
    DifferenceDispatch(p, left, right, x, lib);
    QuotientDispatch(p, left, right, x, lib);
    PowerDispatch(p, left, right, x, lib);
  }

  lemma CosineDispatch(p: nat, l: Node, r: Node, x: real, lib: MathLib)
    ensures Evaluate(Op(Operator("cos", p), l, r), x, lib) == Evaluate(l, x, lib) + lib.cos(Evaluate(r, x, lib))
  {
  }

  lemma SineDispatch(p: nat, l: Node, r: Node, x: real, lib: MathLib)
    ensures Evaluate(Op(Operator("sin", p), l, r), x, lib) == Evaluate(l, x, lib) + lib.sin(Evaluate(r, x, lib))
  {
  }

  lemma LogDispatch(p: nat, l: Node, r: Node, x: real, lib: MathLib)
    ensures Evaluate(Op(Operator("log", p), l, r), x, lib) == Evaluate(l, x, lib) + lib.log(Evaluate(r, x, lib))
  {
  }

  lemma TangentDispatch(p: nat, l: Node, r: Node, x: real, lib: MathLib)
    ensures Evaluate(Op(Operator("tg", p), l, r), x, lib) == Evaluate(l, x, lib) + lib.tan(Evaluate(r, x, lib))
  {
  }

  lemma CotangentDispatch(p: nat, l: Node, r: Node, x: real, lib: MathLib)
    ensures Evaluate(Op(Operator("ctg", p), l, r), x, lib)
         == Evaluate(l, x, lib) + Divide(1.0, lib.tan(Evaluate(r, x, lib)), lib)
  {
  }

  /** A named function node adds the function of its right operand to the
      value of its left operand, whatever that left operand is. */
  lemma FunctionAddsToLeft(p: nat, l: Node, r: Node, x: real, lib: MathLib)
    ensures var a, v := Evaluate(l, x, lib), Evaluate(r, x, lib);
      Evaluate(Op(Operator("cos", p), l, r), x, lib) == a + lib.cos(v) &&
      Evaluate(Op(Operator("sin", p), l, r), x, lib) == a + lib.sin(v) &&
      Evaluate(Op(Operator("log", p), l, r), x, lib) == a + lib.log(v) &&
      Evaluate(Op(Operator("tg", p), l, r), x, lib) == a + lib.tan(v) &&
      Evaluate(Op(Operator("ctg", p), l, r), x, lib) == a + Divide(1.0, lib.tan(v), lib)
  {
    CosineDispatch(p, l, r, x, lib);
    SineDispatch(p, l, r, x, lib);
    LogDispatch(p, l, r, x, lib);
    TangentDispatch(p, l, r, x, lib);
    CotangentDispatch(p, l, r, x, lib);
  }

  /** With a literal 0 as placeholder, a named function is a plain call. */
  lemma FunctionWithPlaceholder(p: nat, r: Node, x: real, lib: MathLib)
    ensures var v := Evaluate(r, x, lib);
      Evaluate(Op(Operator("cos", p), Value(0.0), r), x, lib) == lib.cos(v) &&
      Evaluate(Op(Operator("sin", p), Value(0.0), r), x, lib) == lib.sin(v) &&
      Evaluate(Op(Operator("log", p), Value(0.0), r), x, lib) == lib.log(v) &&
      Evaluate(Op(Operator("tg", p), Value(0.0), r), x, lib) == lib.tan(v) &&
      Evaluate(Op(Operator("ctg", p), Value(0.0), r), x, lib) == Divide(1.0, lib.tan(v), lib)
  {
    FunctionAddsToLeft(p, Value(0.0), r, x, lib);
  }

  /** A tag outside the evaluator's table yields 0, whatever the operands. */
  lemma UnknownTagIsZero(op: Operator, left: Node, right: Node, x: real, lib: MathLib)
    requires op.tag !in {"*", "+", "-", "/", "cos", "sin", "'", "log", "ctg", "tg"}
    ensures Evaluate(Op(op, left, right), x, lib) == 0.0
  {
  }
}
