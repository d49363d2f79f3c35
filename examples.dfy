/** The parser and the evaluator on concrete lines: precedence, left
    associativity, the power operator, named functions, the variable, the
    flat parentheses, and lines the scan mishandles.

    Each line's scan is written out as a list of states, one per token, and
    followed a few tokens at a time: the `UpToN` lemmas state that each
    state leads to the next (`Leads`), `Advances` turns each such step into
    an equality of the rest of the scan, and `Concludes` turns the last
    state into the parse result. Unfolding the scan of a whole concrete
    line at once makes the verifier's work grow with the line and with
    every step's branches; a few steps at a time keeps each proof small. */
module Examples {
  import opened Nodes
  import opened Parser
  import ScanFacts
  import Grammar

  /** `st` is followed by `st'` in the scan of `line`, compared field by field. */
  predicate Leads(line: string, st: ScanState, st': ScanState) {
    st.pos < |line| && Step(line, st).Some? &&
    Step(line, st).value.values == st'.values && Step(line, st).value.ops == st'.ops &&
    Step(line, st).value.num == st'.num && Step(line, st).value.skobka == st'.skobka &&
    Step(line, st).value.pos == st'.pos
  }

  /** One step of the scan, seen from the scan of the rest of the line. */
  lemma Advances(line: string, st: ScanState, st': ScanState)
    requires Leads(line, st, st')
    ensures st.pos <= |line| && Scan(line, st) == Scan(line, st')
  {
    assert Step(line, st) == Some(st');
  }

  /** A non-empty line whose scan reaches the end in `st`, where resolving
      the pending operators leaves the single tree `tree`, parses to it. */
  lemma Concludes(line: string, st: ScanState, tree: Node)
    requires line != [] && st.pos == |line| && Scan(line, Start) == Scan(line, st)
    requires Reduced(st.values, st.ops, 0) == Some(Stacks([tree], []))
    ensures Parsed(line) == Some(tree)
  {
    PopCountZero(st.ops);
  }

  /** Resolving one operator over two operands. */
  lemma PopsOne(a: Node, b: Node, op: Operator, threshold: int)
    requires op.precedence >= threshold
    ensures Reduced([a, b], [op], threshold) == Some(Stacks([Op(op, a, b)], []))
  {
    assert Combine([a, b], op) == [Op(op, a, b)];
    assert [op][..0] == [];
  }

  /** Resolving two operators over three operands, the later one first. */
  lemma PopsTwo(a: Node, b: Node, c: Node, first: Operator, second: Operator, threshold: int)
    requires first.precedence >= threshold && second.precedence >= threshold
    ensures Reduced([a, b, c], [first, second], threshold)
         == Some(Stacks([Op(first, a, Op(second, b, c))], []))
  {
    assert Combine([a, b, c], second) == [a, Op(second, b, c)];
    assert [first, second][..1] == [first];
    PopsOne(a, Op(second, b, c), first, threshold);
  }

  const Mul2 := Operator("*", 2)
  const Add1 := Operator("+", 1)
  const Sub1 := Operator("-", 1)

  /** An empty line is the literal 0. */
  lemma EmptyLine(x: real, lib: MathLib)
    ensures Parsed("") == Some(Value(0.0))
    ensures Evaluate(Parsed("").value, x, lib) == 0.0
  {
  }

  const Product23 := Op(Mul2, Value(2.0), Value(3.0))

  /** The states of the scan of `2*3+4`, one per token. */
  const MulBeforeAddScan := [
    Start,
    ScanState([Value(2.0)], [], true, 0, 1),
    ScanState([Value(2.0)], [Mul2], false, 0, 2),
    ScanState([Value(2.0), Value(3.0)], [Mul2], true, 0, 3),
    ScanState([Product23], [Add1], false, 0, 4),
    ScanState([Product23, Value(4.0)], [Add1], true, 0, 5)]

  /** The scan of `2*3+4` up to the `+`. */
  lemma MulBeforeAddUpTo3()
    ensures Leads("2*3+4", MulBeforeAddScan[0], MulBeforeAddScan[1]) &&
            Leads("2*3+4", MulBeforeAddScan[1], MulBeforeAddScan[2]) &&
            Leads("2*3+4", MulBeforeAddScan[2], MulBeforeAddScan[3])
  {
  }

  /** The `+` of `2*3+4` resolves the pending `*`. */
  lemma MulBeforeAddUpTo5()
    ensures Leads("2*3+4", MulBeforeAddScan[3], MulBeforeAddScan[4]) &&
            Leads("2*3+4", MulBeforeAddScan[4], MulBeforeAddScan[5])
  {
    PopsOne(Value(2.0), Value(3.0), Mul2, 1);
  }

  /** `*` binds tighter than the `+` that follows it. */
  lemma MulBeforeAdd(x: real, lib: MathLib)
    ensures Parsed("2*3+4") == Some(Op(Add1, Op(Mul2, Value(2.0), Value(3.0)), Value(4.0)))
    ensures Evaluate(Parsed("2*3+4").value, x, lib) == 10.0
  {
    var last, tree := MulBeforeAddScan[5], Op(Add1, Product23, Value(4.0));
    MulBeforeAddUpTo3();
    MulBeforeAddUpTo5();
    Advances("2*3+4", MulBeforeAddScan[0], MulBeforeAddScan[1]);
    Advances("2*3+4", MulBeforeAddScan[1], MulBeforeAddScan[2]);
    Advances("2*3+4", MulBeforeAddScan[2], MulBeforeAddScan[3]);
    Advances("2*3+4", MulBeforeAddScan[3], MulBeforeAddScan[4]);
    Advances("2*3+4", MulBeforeAddScan[4], MulBeforeAddScan[5]);
    PopsOne(Product23, Value(4.0), Add1, 0);
    Concludes("2*3+4", last, tree);
    assert Evaluate(Product23, x, lib) == 6.0;
  }

  const Product34 := Op(Mul2, Value(3.0), Value(4.0))

  /** The states of the scan of `2+3*4`, one per token. */
  const AddThenMulScan := [
    Start,
    ScanState([Value(2.0)], [], true, 0, 1),
    ScanState([Value(2.0)], [Add1], false, 0, 2),
    ScanState([Value(2.0), Value(3.0)], [Add1], true, 0, 3),
    ScanState([Value(2.0), Value(3.0)], [Add1, Mul2], false, 0, 4),
    ScanState([Value(2.0), Value(3.0), Value(4.0)], [Add1, Mul2], true, 0, 5)]

  /** The scan of `2+3*4` up to the `*`. */
  lemma AddThenMulUpTo3()
    ensures Leads("2+3*4", AddThenMulScan[0], AddThenMulScan[1]) &&
            Leads("2+3*4", AddThenMulScan[1], AddThenMulScan[2]) &&
            Leads("2+3*4", AddThenMulScan[2], AddThenMulScan[3])
  {
  }

  /** The `*` of `2+3*4` is pushed above the pending `+`. */
  lemma AddThenMulUpTo5()
    ensures Leads("2+3*4", AddThenMulScan[3], AddThenMulScan[4]) &&
            Leads("2+3*4", AddThenMulScan[4], AddThenMulScan[5])
  {
  }

  /** The scan of `2+3*4` from start to end. */
  lemma AddThenMulScanned()
    ensures Parsed("2+3*4") == Some(Op(Add1, Value(2.0), Product34))
  {
    var last, tree := AddThenMulScan[5], Op(Add1, Value(2.0), Product34);
    AddThenMulUpTo3();
    AddThenMulUpTo5();
    Advances("2+3*4", AddThenMulScan[0], AddThenMulScan[1]);
    Advances("2+3*4", AddThenMulScan[1], AddThenMulScan[2]);
    Advances("2+3*4", AddThenMulScan[2], AddThenMulScan[3]);
    Advances("2+3*4", AddThenMulScan[3], AddThenMulScan[4]);
    Advances("2+3*4", AddThenMulScan[4], AddThenMulScan[5]);
    PopsTwo(Value(2.0), Value(3.0), Value(4.0), Add1, Mul2, 0);
    Concludes("2+3*4", last, tree);
  }

  /** `*` binds tighter than the `+` that precedes it. */
  lemma AddThenMul(x: real, lib: MathLib)
    ensures Parsed("2+3*4") == Some(Op(Add1, Value(2.0), Op(Mul2, Value(3.0), Value(4.0))))
    ensures Evaluate(Parsed("2+3*4").value, x, lib) == 14.0
  {
    AddThenMulScanned();
    assert Evaluate(Product34, x, lib) == 12.0;
  }

  const Difference83 := Op(Sub1, Value(8.0), Value(3.0))

  /** The states of the scan of `8-3-2`, one per token. */
  const LeftAssociativeScan := [
    Start,
    ScanState([Value(8.0)], [], true, 0, 1),
    ScanState([Value(8.0)], [Sub1], false, 0, 2),
    ScanState([Value(8.0), Value(3.0)], [Sub1], true, 0, 3),
    ScanState([Difference83], [Sub1], false, 0, 4),
    ScanState([Difference83, Value(2.0)], [Sub1], true, 0, 5)]

  /** The scan of `8-3-2` up to the second `-`. */
  lemma LeftAssociativeUpTo3()
    ensures Leads("8-3-2", LeftAssociativeScan[0], LeftAssociativeScan[1]) &&
            Leads("8-3-2", LeftAssociativeScan[1], LeftAssociativeScan[2]) &&
            Leads("8-3-2", LeftAssociativeScan[2], LeftAssociativeScan[3])
  {
  }

  /** The second `-` of `8-3-2` resolves the first. */
  lemma LeftAssociativeUpTo5()
    ensures Leads("8-3-2", LeftAssociativeScan[3], LeftAssociativeScan[4]) &&
            Leads("8-3-2", LeftAssociativeScan[4], LeftAssociativeScan[5])
  {
    PopsOne(Value(8.0), Value(3.0), Sub1, 1);
  }

  /** Operators of equal rank associate to the left. */
  lemma LeftAssociative(x: real, lib: MathLib)
    ensures Parsed("8-3-2") == Some(Op(Sub1, Op(Sub1, Value(8.0), Value(3.0)), Value(2.0)))
    ensures Evaluate(Parsed("8-3-2").value, x, lib) == 3.0
  {
    var last, tree := LeftAssociativeScan[5], Op(Sub1, Difference83, Value(2.0));
    LeftAssociativeUpTo3();
    LeftAssociativeUpTo5();
    Advances("8-3-2", LeftAssociativeScan[0], LeftAssociativeScan[1]);
    Advances("8-3-2", LeftAssociativeScan[1], LeftAssociativeScan[2]);
    Advances("8-3-2", LeftAssociativeScan[2], LeftAssociativeScan[3]);
    Advances("8-3-2", LeftAssociativeScan[3], LeftAssociativeScan[4]);
    Advances("8-3-2", LeftAssociativeScan[4], LeftAssociativeScan[5]);
    PopsOne(Difference83, Value(2.0), Sub1, 0);
    Concludes("8-3-2", last, tree);
    assert Evaluate(Difference83, x, lib) == 5.0;
  }

  const Pow := Operator("'", 4)

  /** The states of the scan of `2'3`, one per token. */
  const PowerScan := [
    Start,
    ScanState([Value(2.0)], [], true, 0, 1),
    ScanState([Value(2.0)], [Pow], false, 0, 2),
    ScanState([Value(2.0), Value(3.0)], [Pow], true, 0, 3)]

  /** The scan of `2'3`. */
  lemma PowerUpTo3()
    ensures Leads("2'3", PowerScan[0], PowerScan[1]) &&
            Leads("2'3", PowerScan[1], PowerScan[2]) &&
            Leads("2'3", PowerScan[2], PowerScan[3])
  {
  }

  /** `'` is exponentiation. */
  lemma Power(x: real, lib: MathLib)
    ensures Parsed("2'3") == Some(Op(Operator("'", 4), Value(2.0), Value(3.0)))
    ensures Evaluate(Parsed("2'3").value, x, lib) == lib.pow(2.0, 3.0)
  {
    var last, tree := PowerScan[3], Op(Pow, Value(2.0), Value(3.0));
    PowerUpTo3();
    Advances("2'3", PowerScan[0], PowerScan[1]);
    Advances("2'3", PowerScan[1], PowerScan[2]);
    Advances("2'3", PowerScan[2], PowerScan[3]);
    PopsOne(Value(2.0), Value(3.0), Pow, 0);
    Concludes("2'3", last, tree);
  }

  const Cos := Operator("cos", 3)

  /** The states of the scan of `cos0`: three characters for the function,
      then the digit. */
  const CosineScan := [
    Start,
    ScanState([Value(0.0)], [Cos], false, 0, 3),
    ScanState([Value(0.0), Value(0.0)], [Cos], true, 0, 4)]

  /** The scan of `cos0`. */
  lemma CosineOfZeroUpTo2()
    ensures Leads("cos0", CosineScan[0], CosineScan[1]) &&
            Leads("cos0", CosineScan[1], CosineScan[2])
  {
  }

  /** `cos0` is the placeholder 0 plus the cosine of 0. */
  lemma CosineOfZero(x: real, lib: MathLib)
    ensures Parsed("cos0") == Some(Op(Operator("cos", 3), Value(0.0), Value(0.0)))
    ensures Evaluate(Parsed("cos0").value, x, lib) == 0.0 + lib.cos(0.0)
  {
    var last, tree := CosineScan[2], Op(Cos, Value(0.0), Value(0.0));
    CosineOfZeroUpTo2();
    Advances("cos0", CosineScan[0], CosineScan[1]);
    Advances("cos0", CosineScan[1], CosineScan[2]);
    PopsOne(Value(0.0), Value(0.0), Cos, 0);
    Concludes("cos0", last, tree);
  }

  const Sin := Operator("sin", 3)

  /** The states of the scan of `sin x`: the space between the function and
      its operand is skipped. */
  const SineScan := [
    Start,
    ScanState([Value(0.0)], [Sin], false, 0, 3),
    ScanState([Value(0.0)], [Sin], false, 0, 4),
    ScanState([Value(0.0), Variable], [Sin], false, 0, 5)]

  /** The scan of `sin x`. */
  lemma SineOfXUpTo3()
    ensures Leads("sin x", SineScan[0], SineScan[1]) &&
            Leads("sin x", SineScan[1], SineScan[2]) &&
            Leads("sin x", SineScan[2], SineScan[3])
  {
  }

  /** `sin x` is the sine of the variable. */
  lemma SineOfX(x: real, lib: MathLib)
    ensures Parsed("sin x") == Some(Op(Operator("sin", 3), Value(0.0), Variable))
    ensures Evaluate(Parsed("sin x").value, x, lib) == lib.sin(x)
  {
    var last, tree := SineScan[3], Op(Sin, Value(0.0), Variable);
    SineOfXUpTo3();
    Advances("sin x", SineScan[0], SineScan[1]);
    Advances("sin x", SineScan[1], SineScan[2]);
    Advances("sin x", SineScan[2], SineScan[3]);
    PopsOne(Value(0.0), Variable, Sin, 0);
    Concludes("sin x", last, tree);
  }

  /** The states of the scan of `cos2x`: the function, then two operands in
      a row. */
  const FunctionOverOperandScan := [
    Start,
    ScanState([Value(0.0)], [Cos], false, 0, 3),
    ScanState([Value(0.0), Value(2.0)], [Cos], true, 0, 4),
    ScanState([Value(0.0), Value(2.0), Variable], [Cos], false, 0, 5)]

  /** The scan of `cos2x`. */
  lemma FunctionOverOperandUpTo3()
    ensures Leads("cos2x", FunctionOverOperandScan[0], FunctionOverOperandScan[1]) &&
            Leads("cos2x", FunctionOverOperandScan[1], FunctionOverOperandScan[2]) &&
            Leads("cos2x", FunctionOverOperandScan[2], FunctionOverOperandScan[3])
  {
  }

  /** Outside the grammar a function node can get another left operand than
      its placeholder: in `cos2x` the cosine takes `2` on its left and `x`
      on its right, and the line's value is `2 + cos(x)`. */
  lemma FunctionOverOperand(x: real, lib: MathLib)
    ensures Parsed("cos2x") == Some(Op(Operator("cos", 3), Value(2.0), Variable))
    ensures Evaluate(Parsed("cos2x").value, x, lib) == 2.0 + lib.cos(x)
    ensures !Grammar.WellFormed("cos2x")
  {
    var line, last, tree := "cos2x", FunctionOverOperandScan[3], Op(Cos, Value(2.0), Variable);
    FunctionOverOperandUpTo3();
    Advances(line, FunctionOverOperandScan[0], FunctionOverOperandScan[1]);
    Advances(line, FunctionOverOperandScan[1], FunctionOverOperandScan[2]);
    Advances(line, FunctionOverOperandScan[2], FunctionOverOperandScan[3]);
    assert Combine(last.values, Cos) == [Value(0.0), tree];
    assert [Cos][..0] == [];
    PopCountZero(last.ops);
    assert Reduced(last.values, last.ops, 0) == Some(Stacks([Value(0.0), tree], []));
    Nodes.CosineDispatch(3, Value(2.0), Variable, x, lib);
  }

  /** The tree of `x` is built once and gives the cell's current value on
      every evaluation. */
  lemma VariableTracksCell(lib: MathLib)
    ensures Parsed("x") == Some(Variable)
    ensures Evaluate(Parsed("x").value, 5.0, lib) == 5.0
    ensures Evaluate(Parsed("x").value, -2.0, lib) == -2.0
  {
    Advances("x", Start, ScanState([Variable], [], false, 0, 1));
  }

  /** `1 2` is digits and spaces, and its digits read as 12. */
  lemma SpacedDigitsFiltered()
    ensures ScanFacts.DigitsAndSpaces("1 2")
    ensures ScanFacts.Digits("1 2") == "12" && ScanFacts.DecimalReading("12") == 12
  {
    assert "1 2"[..2] == "1 " && "1 "[..1] == "1" && "1"[..0] == "";
    assert "12"[1..] == "2" && "2"[1..] == "";
  }

  /** A space does not end a literal: `1 2` reads as 12. */
  lemma SpacedDigits()
    ensures Parsed("1 2") == Some(Value(12.0))
  {
    SpacedDigitsFiltered();
    ScanFacts.DigitRun("1 2");
    assert ScanFacts.DecimalReading(ScanFacts.Digits("1 2")) as real == 12.0;
  }

  const Add6 := Operator("+", 6)
  const Sum12 := Op(Add6, Value(1.0), Value(2.0))

  /** The states of the scan of `(1+2)*3`, one per token. */
  const ParenthesesScan := [
    Start,
    ScanState([], [], false, 5, 1),
    ScanState([Value(1.0)], [], true, 5, 2),
    ScanState([Value(1.0)], [Add6], false, 5, 3),
    ScanState([Value(1.0), Value(2.0)], [Add6], true, 5, 4),
    ScanState([Value(1.0), Value(2.0)], [Add6], false, 0, 5),
    ScanState([Sum12], [Mul2], false, 0, 6),
    ScanState([Sum12, Value(3.0)], [Mul2], true, 0, 7)]

  /** The scan of `(1+2)*3` up to the `+`. */
  lemma ParenthesesUpTo3()
    ensures Leads("(1+2)*3", ParenthesesScan[0], ParenthesesScan[1]) &&
            Leads("(1+2)*3", ParenthesesScan[1], ParenthesesScan[2]) &&
            Leads("(1+2)*3", ParenthesesScan[2], ParenthesesScan[3])
  {
  }

  /** The scan of `(1+2)*3` from the `+` up to the `*`. */
  lemma ParenthesesUpTo5()
    ensures Leads("(1+2)*3", ParenthesesScan[3], ParenthesesScan[4]) &&
            Leads("(1+2)*3", ParenthesesScan[4], ParenthesesScan[5])
  {
  }

  /** The `*` after `)` resolves the biased `+`. */
  lemma ParenthesesUpTo7()
    ensures Leads("(1+2)*3", ParenthesesScan[5], ParenthesesScan[6]) &&
            Leads("(1+2)*3", ParenthesesScan[6], ParenthesesScan[7])
  {
    PopsOne(Value(1.0), Value(2.0), Add6, 2);
  }

  /** One level of parentheses groups: the sum inside is resolved first. */
  lemma Parentheses(x: real, lib: MathLib)
    ensures Parsed("(1+2)*3") == Some(Op(Mul2, Op(Operator("+", 6), Value(1.0), Value(2.0)), Value(3.0)))
    ensures Evaluate(Parsed("(1+2)*3").value, x, lib) == 9.0
  {
    var last, tree := ParenthesesScan[7], Op(Mul2, Sum12, Value(3.0));
    ParenthesesUpTo3();
    ParenthesesUpTo5();
    ParenthesesUpTo7();
    Advances("(1+2)*3", ParenthesesScan[0], ParenthesesScan[1]);
    Advances("(1+2)*3", ParenthesesScan[1], ParenthesesScan[2]);
    Advances("(1+2)*3", ParenthesesScan[2], ParenthesesScan[3]);
    Advances("(1+2)*3", ParenthesesScan[3], ParenthesesScan[4]);
    Advances("(1+2)*3", ParenthesesScan[4], ParenthesesScan[5]);
    Advances("(1+2)*3", ParenthesesScan[5], ParenthesesScan[6]);
    Advances("(1+2)*3", ParenthesesScan[6], ParenthesesScan[7]);
    PopsOne(Sum12, Value(3.0), Mul2, 0);
    Concludes("(1+2)*3", last, tree);
    assert Evaluate(Sum12, x, lib) == 3.0;
  }

  const Mul7 := Operator("*", 7)
  const Product23Biased := Op(Mul7, Value(2.0), Value(3.0))

  /** The states of the scan of `(2*(3+4))`, one per token. */
  const NestedScan := [
    Start,
    ScanState([], [], false, 5, 1),
    ScanState([Value(2.0)], [], true, 5, 2),
    ScanState([Value(2.0)], [Mul7], false, 5, 3),
    ScanState([Value(2.0)], [Mul7], false, 5, 4),
    ScanState([Value(2.0), Value(3.0)], [Mul7], true, 5, 5),
    ScanState([Product23Biased], [Add6], false, 5, 6),
    ScanState([Product23Biased, Value(4.0)], [Add6], true, 5, 7),
    ScanState([Product23Biased, Value(4.0)], [Add6], false, 0, 8),
    ScanState([Product23Biased, Value(4.0)], [Add6], false, 0, 9)]

  /** The scan of `(2*(3+4))` up to the `*`. */
  lemma NestedParenthesesFlattenUpTo3()
    ensures Leads("(2*(3+4))", NestedScan[0], NestedScan[1]) &&
            Leads("(2*(3+4))", NestedScan[1], NestedScan[2]) &&
            Leads("(2*(3+4))", NestedScan[2], NestedScan[3])
  {
  }

  /** The second `(` of `(2*(3+4))` sets the bias it already has. */
  lemma NestedParenthesesFlattenUpTo5()
    ensures Leads("(2*(3+4))", NestedScan[3], NestedScan[4]) &&
            Leads("(2*(3+4))", NestedScan[4], NestedScan[5])
  {
  }

  /** The inner `+` has the same bias as the `*`, so it resolves the `*`. */
  lemma NestedParenthesesFlattenUpTo7()
    ensures Leads("(2*(3+4))", NestedScan[5], NestedScan[6]) &&
            Leads("(2*(3+4))", NestedScan[6], NestedScan[7])
  {
    PopsOne(Value(2.0), Value(3.0), Mul7, 6);
  }

  /** The two closing parentheses only reset the bias. */
  lemma NestedParenthesesFlattenUpTo9()
    ensures Leads("(2*(3+4))", NestedScan[7], NestedScan[8]) &&
            Leads("(2*(3+4))", NestedScan[8], NestedScan[9])
  {
  }

  /** The scan of `(2*(3+4))` up to the inner `+`. */
  lemma NestedParenthesesFlattenOpening()
    ensures Scan("(2*(3+4))", Start) == Scan("(2*(3+4))", NestedScan[5])
  {
    NestedParenthesesFlattenUpTo3();
    NestedParenthesesFlattenUpTo5();
    Advances("(2*(3+4))", NestedScan[0], NestedScan[1]);
    Advances("(2*(3+4))", NestedScan[1], NestedScan[2]);
    Advances("(2*(3+4))", NestedScan[2], NestedScan[3]);
    Advances("(2*(3+4))", NestedScan[3], NestedScan[4]);
    Advances("(2*(3+4))", NestedScan[4], NestedScan[5]);
  }

  /** Parentheses do not nest: the inner `(` only sets the bias to 5 again,
      so the `*` is resolved before the inner sum and the line reads as
      2*3 + 4. */
  lemma NestedParenthesesFlatten(x: real, lib: MathLib)
    ensures Parsed("(2*(3+4))")
         == Some(Op(Operator("+", 6), Op(Operator("*", 7), Value(2.0), Value(3.0)), Value(4.0)))
    ensures Evaluate(Parsed("(2*(3+4))").value, x, lib) == 10.0
  {
    var last, tree := NestedScan[9], Op(Add6, Product23Biased, Value(4.0));
    NestedParenthesesFlattenOpening();
    NestedParenthesesFlattenUpTo7();
    NestedParenthesesFlattenUpTo9();
    Advances("(2*(3+4))", NestedScan[5], NestedScan[6]);
    Advances("(2*(3+4))", NestedScan[6], NestedScan[7]);
    Advances("(2*(3+4))", NestedScan[7], NestedScan[8]);
    Advances("(2*(3+4))", NestedScan[8], NestedScan[9]);
    PopsOne(Product23Biased, Value(4.0), Add6, 0);
    Concludes("(2*(3+4))", last, tree);
    assert Evaluate(Product23Biased, x, lib) == 6.0;
  }

  /** The grammar does not rule out nested parentheses: the line whose flat
      reading is shown above belongs to it. */
  lemma NestedParenthesesInGrammar()
    ensures Grammar.WellFormed("(2*(3+4))")
  {
  }

  /** A leading minus has no left operand: resolving it pops an empty stack. */
  lemma UnaryMinusUndefined()
    ensures !Defined("-x")
  {
    var line, minus := "-x", Operator("-", 1);
    var s1 := ScanState([], [minus], false, 0, 1);
    var s2 := ScanState([Variable], [minus], false, 0, 2);
    Advances(line, Start, s1);
    Advances(line, s1, s2);
  }

  /** `p` must be followed by its second character. */
  lemma TruncatedPiUndefined()
    ensures !Defined("p")
  {
  }

  /** Two operands in a row are not an error: the scan keeps both and
      returns the last one, so `2x` is just `x`. */
  lemma DiscardedOperand()
    ensures Parsed("2x") == Some(Variable)
    ensures !Grammar.WellFormed("2x")
  {
    var line := "2x";
    var s1 := ScanState([Value(2.0)], [], true, 0, 1);
    var s2 := ScanState([Value(2.0), Variable], [], false, 0, 2);
    Advances(line, Start, s1);
    Advances(line, s1, s2);
  }
}
