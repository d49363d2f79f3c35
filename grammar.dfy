/** A grammar of lines on which the scan has defined behaviour and leaves
    exactly one operand: operands and operators alternate, a digit run is
    one operand, and a named function starts an operand only where it pops
    nothing. It says nothing about grouping: parentheses need not balance
    and may nest, although the scan reads them flat. */
module Grammar {
  import opened Nodes
  import opened Parser

  /** Where the grammar stands: before an operand, knowing the rank of the
      operator last pushed (None when no operator is pending), or after a
      complete operand, knowing whether it is a digit run still open. */
  datatype Mode = Expecting(top: Option<nat>) | Complete(inDigits: bool)

  predicate IsOperatorChar(c: char) {
    c == '*' || c == '/' || c == '+' || c == '-' || c == '\''
  }

  predicate IsFunctionChar(c: char) {
    c == 'c' || c == 's' || c == 't' || c == 'l'
  }

  /** The tag of the named function spelled at `pos`, as the scan reads it. */
  function FunctionTag(line: string, pos: nat): Option<string>
    requires pos < |line|
  {
    var c := line[pos];
    if c == 'c' then
      if pos + 1 < |line| && line[pos + 1] == 'o' then Some("cos")
      else if pos + 1 < |line| && line[pos + 1] == 't' then Some("ctg")
      else None
    else if c == 's' then Some("sin")
    else if c == 't' then Some("tg")
    else if c == 'l' then Some("log")
    else None
  }

  /** The operators a function token pushes: its own, when its spelling
      names one. */
  function Pushed(tag: Option<string>, skobka: int): seq<Operator> {
    match tag
    case Some(t) => [MakeOperator(t, skobka)]
    case None => []
  }

  lemma PushFunctionShape(line: string, st: ScanState, tag: Option<string>, width: nat)
    ensures var r, red := PushFunction(line, st, tag, width), Reduced(st.values, st.ops, 3 + st.skobka);
      (r.Some? <==> st.pos + width <= |line| && red.Some?) &&
      (r.Some? ==>
         r.value.values == red.value.values + [Value(0.0)] &&
         r.value.ops == red.value.ops + Pushed(tag, st.skobka) &&
         r.value.pos == st.pos + width && !r.value.num && r.value.skobka == st.skobka)
  {
  }

  /** A named function token first resolves what ranks at least 3 plus the
      bias, then pushes the placeholder 0 and, when its spelling names a
      function, that function's operator. It is defined exactly when its
      characters fit in the line and the resolution is defined. */
  lemma FunctionToken(line: string, st: ScanState)
    requires st.pos < |line| && IsFunctionChar(line[st.pos])
    ensures var r, red := Step(line, st), Reduced(st.values, st.ops, 3 + st.skobka);
      (r.Some? <==> st.pos + TokenWidth(line[st.pos]) <= |line| && red.Some?) &&
      (r.Some? ==>
         r.value.values == red.value.values + [Value(0.0)] &&
         r.value.ops == red.value.ops + Pushed(FunctionTag(line, st.pos), st.skobka) &&
         r.value.pos == st.pos + TokenWidth(line[st.pos]) && !r.value.num && r.value.skobka == st.skobka)
  {
    var c := line[st.pos];
    var tag := FunctionTag(line, st.pos);
    assert Step(line, st) == PushFunction(line, st, tag, TokenWidth(c));
    PushFunctionShape(line, st, tag, TokenWidth(c));
  }

  predicate WellFormedFrom(line: string, pos: nat, mode: Mode, bias: int)
    requires pos <= |line|
    decreases |line| - pos
  {
    if pos == |line| then mode.Complete?
    else
      var c := line[pos];
      if IsDigit(c) then
        (mode.Expecting? || mode.inDigits) && WellFormedFrom(line, pos + 1, Complete(true), bias)
      else if c == 'e' || c == 'x' || c == 'p' then
        mode.Expecting? && pos + TokenWidth(c) <= |line| &&
        WellFormedFrom(line, pos + TokenWidth(c), Complete(false), bias)
      else if IsOperatorChar(c) then
        mode.Complete? &&
        WellFormedFrom(line, pos + 1, Expecting(Some(MakeOperator([c], bias).precedence)), bias)
      else if IsFunctionChar(c) then
        var tag := FunctionTag(line, pos);
        mode.Expecting? && (mode.top.None? || mode.top.value < 3 + bias) &&
        pos + TokenWidth(c) <= |line| && tag.Some? &&
        WellFormedFrom(line, pos + TokenWidth(c), Expecting(Some(MakeOperator(tag.value, bias).precedence)), bias)
      else if c == '(' || c == ')' then
        WellFormedFrom(line, pos + 1, if mode.Complete? then Complete(false) else mode, if c == '(' then 5 else 0)
      else
        WellFormedFrom(line, pos + 1, mode, bias)
  }

  predicate WellFormed(line: string) {
    line == [] || WellFormedFrom(line, 0, Expecting(None), 0)
  }

  /** The scan state matches the grammar's mode. */
  predicate Agrees(st: ScanState, mode: Mode) {
    match mode
    case Expecting(top) =>
      |st.values| == |st.ops| && !st.num &&
      (top.None? <==> st.ops == []) &&
      (top.Some? ==> st.ops != [] && Last(st.ops).precedence == top.value)
    case Complete(inDigits) =>
      |st.values| == |st.ops| + 1 && st.num == inDigits
  }

  /** The mode the grammar moves to on the token at `st.pos`. */
  function NextMode(line: string, st: ScanState, mode: Mode): Mode
    requires st.pos < |line|
  {
    var c := line[st.pos];
    if IsDigit(c) then Complete(true)
    else if c == 'e' || c == 'x' || c == 'p' then Complete(false)
    else if IsOperatorChar(c) then
      Expecting(Some(MakeOperator([c], st.skobka).precedence))
    else if IsFunctionChar(c) && FunctionTag(line, st.pos).Some? then
      Expecting(Some(MakeOperator(FunctionTag(line, st.pos).value, st.skobka).precedence))
    else if (c == '(' || c == ')') && mode.Complete? then Complete(false)
    else mode
  }

  lemma OperatorAgrees(st: ScanState, tag: string, threshold: int)
    requires Agrees(st, Complete(st.num))
    ensures PushOperator(st, tag, threshold).Some?
    ensures Agrees(PushOperator(st, tag, threshold).value,
                   Expecting(Some(MakeOperator(tag, st.skobka).precedence)))
  {
    ReducedShape(st.values, st.ops, threshold);
  }

  lemma FunctionAgrees(line: string, st: ScanState, top: Option<nat>, tag: string, width: nat)
    requires Agrees(st, Expecting(top)) && st.pos + width <= |line|
    requires top.None? || top.value < 3 + st.skobka
    ensures PushFunction(line, st, Some(tag), width).Some?
    ensures Agrees(PushFunction(line, st, Some(tag), width).value,
                   Expecting(Some(MakeOperator(tag, st.skobka).precedence)))
  {
    assert PopCount(st.ops, 3 + st.skobka) == 0;
    ReducedShape(st.values, st.ops, 3 + st.skobka);
  }

  /** The requirement of the next three lemmas: a well-formed token under
      the cursor, in a state that matches the grammar's mode. */
  predicate ReadyFor(line: string, st: ScanState, mode: Mode) {
    st.pos < |line| && Agrees(st, mode) && WellFormedFrom(line, st.pos, mode, st.skobka)
  }

  /** The grammar's next mode matches the state after the scan's step. */
  predicate StepMatches(line: string, st: ScanState, mode: Mode)
    requires st.pos < |line|
  {
    Step(line, st).Some? &&
    Agrees(Step(line, st).value, NextMode(line, st, mode)) &&
    WellFormedFrom(line, Step(line, st).value.pos, NextMode(line, st, mode), Step(line, st).value.skobka)
  }

  lemma OperatorStepAgrees(line: string, st: ScanState, mode: Mode)
    requires ReadyFor(line, st, mode) && IsOperatorChar(line[st.pos])
    ensures StepMatches(line, st, mode)
  {
    var c := line[st.pos];
    if c == '*' || c == '/' {
      OperatorAgrees(st, [c], 2 + st.skobka);
    } else if c == '+' || c == '-' {
      OperatorAgrees(st, [c], 1 + st.skobka);
    } else {
      OperatorAgrees(st, [c], 4 + st.skobka);
    }
  }

  lemma FunctionStepAgrees(line: string, st: ScanState, mode: Mode)
    requires ReadyFor(line, st, mode) && IsFunctionChar(line[st.pos])
    ensures StepMatches(line, st, mode)
  {
    var c := line[st.pos];
    FunctionAgrees(line, st, mode.top, FunctionTag(line, st.pos).value, TokenWidth(c));
  }

  lemma OperandStepAgrees(line: string, st: ScanState, mode: Mode)
    requires ReadyFor(line, st, mode)
    requires !IsOperatorChar(line[st.pos]) && !IsFunctionChar(line[st.pos])
    ensures StepMatches(line, st, mode)
  {
  }

  /** One token of a well-formed line: the scan's step is defined, and the
      new state matches the grammar's next mode. */
  lemma StepAgrees(line: string, st: ScanState, mode: Mode)
    requires ReadyFor(line, st, mode)
    ensures StepMatches(line, st, mode)
  {
    var c := line[st.pos];
    if IsOperatorChar(c) {
      OperatorStepAgrees(line, st, mode);
    } else if IsFunctionChar(c) {
      FunctionStepAgrees(line, st, mode);
    } else {
      OperandStepAgrees(line, st, mode);
    }
  }

  lemma {:induction false} ScanAgrees(line: string, st: ScanState, mode: Mode)
    requires st.pos <= |line| && Agrees(st, mode) && WellFormedFrom(line, st.pos, mode, st.skobka)
    decreases |line| - st.pos
    ensures Scan(line, st).Some?
    ensures |Scan(line, st).value.values| == |Scan(line, st).value.ops| + 1
  {
    if st.pos < |line| {
      StepAgrees(line, st, mode);
      assert StepMatches(line, st, mode);
      ScanAgrees(line, Step(line, st).value, NextMode(line, st, mode));
    }
  }

  /** On a well-formed line the scan has defined behaviour, and once the
      remaining operators are resolved exactly one operand is left: the
      root `Parse` returns. */
  lemma WellFormedParses(line: string)
    requires WellFormed(line)
    ensures Defined(line)
    ensures line != [] ==> Resolved(line).Some? && |Resolved(line).value.values| == 1
  {
    if line != [] {
      ScanAgrees(line, Start, Expecting(None));
      var st := Scan(line, Start).value;
      PopCountZero(st.ops);
      ReducedShape(st.values, st.ops, 0);
    }
  }
}
