/** The one-pass, two-stack parser of an expression line. The functions are
    its specification; the methods `PopOps` and `Parse` are the scan itself.
    A result `None` marks an input on which the scan has undefined
    behaviour: it pops an empty stack or moves its cursor past the end. */
module Parser {
  import opened Nodes

  datatype Option<T> = None | Some(value: T)

  /** The operand stack and the operator stack; the top is the last element. */
  datatype Stacks = Stacks(values: seq<Node>, ops: seq<Operator>)

  /** Everything the scan keeps: both stacks, the "inside a numeric
      literal" flag, the parenthesis bias and the cursor. */
  datatype ScanState = ScanState(
    values: seq<Node>, ops: seq<Operator>, num: bool, skobka: int, pos: nat)

  const Start := ScanState([], [], false, 0, 0)

  function Last<T>(s: seq<T>): T
    requires |s| > 0
  {
    s[|s| - 1]
  }

  /** How many operators from the top of `ops` rank at least `threshold`. */
  function PopCount(ops: seq<Operator>, threshold: int): (k: nat)
    ensures k <= |ops|
  {
    if |ops| == 0 || Last(ops).precedence < threshold then 0
    else 1 + PopCount(ops[..|ops| - 1], threshold)
  }

  /** The operators counted are exactly the top run that ranks at least
      `threshold`. */
  lemma {:induction false} PopCountRun(ops: seq<Operator>, threshold: int)
    ensures forall j | |ops| - PopCount(ops, threshold) <= j < |ops| :: ops[j].precedence >= threshold
    ensures PopCount(ops, threshold) < |ops| ==>
      ops[|ops| - 1 - PopCount(ops, threshold)].precedence < threshold
  {
    if |ops| != 0 && Last(ops).precedence >= threshold {
      PopCountRun(ops[..|ops| - 1], threshold);
    }
  }

  /** Every operator ranks at least 0, so threshold 0 counts them all. */
  lemma PopCountZero(ops: seq<Operator>)
    ensures PopCount(ops, 0) == |ops|
  {
    PopCountRun(ops, 0);
  }

  /** One resolution: the top operator takes the top operand as its right
      child and the one below as its left child. */
  function Combine(values: seq<Node>, op: Operator): (r: seq<Node>)
    requires |values| >= 2
    ensures |r| == |values| - 1
    ensures r[..|r| - 1] == values[..|values| - 2]
    ensures Last(r) == Op(op, values[|values| - 2], Last(values))
  {
    values[..|values| - 2] + [Op(op, values[|values| - 2], Last(values))]
  }

  /** The stacks after resolving every pending operator that ranks at least
      `threshold`. */
  function Reduced(values: seq<Node>, ops: seq<Operator>, threshold: int): Option<Stacks>
    decreases |ops|
  {
    if |ops| == 0 || Last(ops).precedence < threshold then Some(Stacks(values, ops))
    else if |values| < 2 then None
    else Reduced(Combine(values, Last(ops)), ops[..|ops| - 1], threshold)
  }

  /** Resolution fails exactly when there are operators to pop and too few
      operands for them. Otherwise it pops exactly the top run of operators
      that rank at least `threshold`, keeps the difference between the
      sizes of the stacks and leaves the operands below the ones it
      consumed untouched. */
  lemma {:induction false} ReducedShape(values: seq<Node>, ops: seq<Operator>, threshold: int)
    decreases |ops|
    ensures var k := PopCount(ops, threshold); var r := Reduced(values, ops, threshold);
      (r.None? <==> 0 < k && |values| <= k) &&
      (k == 0 ==> r == Some(Stacks(values, ops))) &&
      (r.Some? ==> r.value.ops == ops[..|ops| - k]) &&
      (r.Some? ==> |r.value.values| - |r.value.ops| == |values| - |ops|) &&
      (r.Some? && 0 < k ==> r.value.values[..|values| - k - 1] == values[..|values| - k - 1])
  {
    if |ops| != 0 && Last(ops).precedence >= threshold && |values| >= 2 {
      var vs := Combine(values, Last(ops));
      ReducedShape(vs, ops[..|ops| - 1], threshold);
      var k := PopCount(ops, threshold);
      if Reduced(values, ops, threshold).Some? && 1 < k {
        assert values[..|values| - k - 1] == values[..|values| - 2][..|values| - k - 1];
      }
    }
  }

  /** `PopOps`: pops and combines while the top operator ranks at least
      `precedence`. */
  method PopOps(values: seq<Node>, ops: seq<Operator>, precedence: int)
    returns (values': seq<Node>, ops': seq<Operator>)
    requires Reduced(values, ops, precedence).Some?
    ensures Reduced(values, ops, precedence) == Some(Stacks(values', ops'))
  {
    values', ops' := values, ops;
    while |ops'| != 0 && Last(ops').precedence >= precedence
      invariant Reduced(values', ops', precedence) == Reduced(values, ops, precedence)
      decreases |ops'|
    {
      ghost var old_values := values';
      var value1 := Last(values');
      values' := values'[..|values'| - 1];
      var value2 := Last(values');
      values' := values'[..|values'| - 1];
      var op := Last(ops');
      ops' := ops'[..|ops'| - 1];
      values' := values' + [Op(op, value2, value1)];
      assert values' == Combine(old_values, op);
    }
  }

  /** The characters a token starting with `c` occupies. */
  function TokenWidth(c: char): nat {
    if c == 'p' || c == 't' then 2
    else if c == 'c' || c == 's' || c == 'l' then 3
    else 1
  }

  /** A binary operator (or the power operator): resolve what ranks at
      least `threshold`, then push it. */
  function PushOperator(st: ScanState, tag: string, threshold: int): Option<ScanState>
  {
    match Reduced(st.values, st.ops, threshold)
    case None => None
    case Some(s) =>
      Some(st.(values := s.values, ops := s.ops + [MakeOperator(tag, st.skobka)],
               num := false, pos := st.pos + 1))
  }

  /** An operator push is defined exactly when the resolution before it is.
      It leaves the new operator on top of what was pending, over an
      operator ranking below the threshold (or none), removes one operand
      per operator resolved and moves the cursor past the character. */
  lemma PushOperatorShape(st: ScanState, tag: string, threshold: int)
    ensures var r := PushOperator(st, tag, threshold);
      (r.Some? <==> Reduced(st.values, st.ops, threshold).Some?) &&
      (r.Some? ==>
         r.value.ops != [] && Last(r.value.ops) == MakeOperator(tag, st.skobka) &&
         r.value.ops[..|r.value.ops| - 1] <= st.ops &&
         (|r.value.ops| == 1 || r.value.ops[|r.value.ops| - 2].precedence < threshold) &&
         |r.value.values| - |r.value.ops| == |st.values| - |st.ops| - 1 &&
         !r.value.num && r.value.skobka == st.skobka && r.value.pos == st.pos + 1)
  {
    ReducedShape(st.values, st.ops, threshold);
    var red := Reduced(st.values, st.ops, threshold);
    if red.Some? {
      var k := PopCount(st.ops, threshold);
      PopCountRun(st.ops, threshold);
      var ops := red.value.ops + [MakeOperator(tag, st.skobka)];
      assert PushOperator(st, tag, threshold).value.ops == ops;
      assert ops[..|ops| - 1] == red.value.ops == st.ops[..|st.ops| - k];
      assert |ops| > 1 ==> ops[|ops| - 2] == st.ops[|st.ops| - 1 - k];
    }
  }

  /** A named function occupying `width` characters: resolve what ranks at
      least 3 plus the bias, push the placeholder 0 and the function. The
      `c` branch pushes no operator when the second character is neither
      `o` nor `t`, hence the optional tag. */
  function PushFunction(line: string, st: ScanState, tag: Option<string>, width: nat): Option<ScanState>
  {
    if st.pos + width > |line| then None
    else match Reduced(st.values, st.ops, 3 + st.skobka)
    case None => None
    case Some(s) =>
      var ops := if tag.Some? then s.ops + [MakeOperator(tag.value, st.skobka)] else s.ops;
      Some(st.(values := s.values + [FromDigit('0')], ops := ops, num := false, pos := st.pos + width))
  }

  /** One turn of the scan loop, on the token under the cursor. */
  function Step(line: string, st: ScanState): (r: Option<ScanState>)
    requires st.pos < |line|
    ensures r.Some? ==> st.pos < r.value.pos <= |line|
  {
    var c := line[st.pos];
    var next := st.pos + 1;
    if IsDigit(c) then
      if !st.num then
        Some(st.(values := st.values + [FromDigit(c)], num := true, pos := next))
      else if |st.values| == 0 then None
      else
        Some(st.(values := st.values[..|st.values| - 1] + [Increase(Last(st.values), c)], pos := next))
    else if c == 'e' then
      Some(st.(values := st.values + [Value(E)], num := false, pos := next))
    else if c == 'p' then
      if st.pos + 2 > |line| then None
      else Some(st.(values := st.values + [Value(Pi)], num := false, pos := st.pos + 2))
    else if c == 'x' then
      Some(st.(values := st.values + [Variable], num := false, pos := next))
    else if c == '*' || c == '/' then PushOperator(st, [c], 2 + st.skobka)
    else if c == '+' || c == '-' then PushOperator(st, [c], 1 + st.skobka)
    else if c == 'c' then
      var tag := if st.pos + 1 < |line| && line[st.pos + 1] == 'o' then Some("cos")
                 else if st.pos + 1 < |line| && line[st.pos + 1] == 't' then Some("ctg")
                 else None;
      PushFunction(line, st, tag, 3)
    else if c == 's' then PushFunction(line, st, Some("sin"), 3)
    else if c == 't' then PushFunction(line, st, Some("tg"), 2)
    else if c == 'l' then PushFunction(line, st, Some("log"), 3)
    else if c == '\'' then PushOperator(st, [c], 4 + st.skobka)
    else if c == '(' then Some(st.(skobka := 5, num := false, pos := next))
    else if c == ')' then Some(st.(skobka := 0, num := false, pos := next))
    else Some(st.(pos := next))
  }

  /** The scan loop from `st` to the end of the line. */
  function Scan(line: string, st: ScanState): (r: Option<ScanState>)
    requires st.pos <= |line|
    decreases |line| - st.pos
    ensures r.Some? ==> r.value.pos == |line|
  {
    if st.pos == |line| then Some(st)
    else match Step(line, st)
      case None => None
      case Some(st') => Scan(line, st')
  }

  /** The stacks once the scan is over and every remaining operator has been
      resolved. */
  function Resolved(line: string): (r: Option<Stacks>)
    ensures r.Some? ==> r.value.ops == []
  {
    match Scan(line, Start)
    case None => None
    case Some(st) =>
      PopCountZero(st.ops);
      ReducedShape(st.values, st.ops, 0);
      Reduced(st.values, st.ops, 0)
  }

  /** The root `Parse` returns for `line`: the literal 0 for the empty
      line, otherwise the top operand once everything is resolved. */
  function Parsed(line: string): (r: Option<Node>)
    ensures line == [] ==> r == Some(Value(0.0))
    ensures line != [] ==> (r.Some? <==> Resolved(line).Some? && Resolved(line).value.values != [])
    ensures line != [] && r.Some? ==> r.value == Last(Resolved(line).value.values)
  {
    if |line| == 0 then Some(FromDigit('0'))
    else match Resolved(line)
      case None => None
      case Some(s) => if |s.values| == 0 then None else Some(Last(s.values))
  }

  /** The lines on which `Parse` has defined behaviour. */
  predicate Defined(line: string) {
    Parsed(line).Some?
  }

  /** One turn of `Parse`'s scan loop: the token under the cursor `token`
      updates the stacks, the flags and the cursor. */
  method ScanToken(line: string, values: seq<Node>, ops: seq<Operator>, num: bool, skobka: int, token: nat)
    returns (values': seq<Node>, ops': seq<Operator>, num': bool, skobka': int, token': nat)
    requires token < |line|
    requires Step(line, ScanState(values, ops, num, skobka, token)).Some?
    ensures Step(line, ScanState(values, ops, num, skobka, token))
            == Some(ScanState(values', ops', num', skobka', token'))
  {
    values', ops', num', skobka', token' := values, ops, num, skobka, token;
    var value := line[token];
    if IsDigit(value) {
      if !num {
        values' := values' + [FromDigit(value)];
        num' := true;
      } else {
        values' := values'[..|values'| - 1] + [Increase(Last(values'), value)];
      }
    } else if value == 'e' {
      values' := values' + [Value(E)];
      num' := false;
    } else if value == 'p' {
      token' := token' + 1;
      values' := values' + [Value(Pi)];
      num' := false;
    } else if value == 'x' {
      values' := values' + [Variable];
      num' := false;
    } else if value == '*' || value == '/' {
      values', ops' := PopOps(values', ops', 2 + skobka);
      ops' := ops' + [MakeOperator([value], skobka)];
      num' := false;
    } else if value == '+' || value == '-' {
      values', ops' := PopOps(values', ops', 1 + skobka);
      ops' := ops' + [MakeOperator([value], skobka)];
      num' := false;
    } else if value == 'c' {
      values', ops' := PopOps(values', ops', 3 + skobka);
      token' := token' + 1;
      values' := values' + [FromDigit('0')];
      if line[token'] == 'o' {
        ops' := ops' + [MakeOperator("cos", skobka)];
      } else if line[token'] == 't' {
        ops' := ops' + [MakeOperator("ctg", skobka)];
      }
      token' := token' + 1;
      num' := false;
    } else if value == 's' {
      values', ops' := PopOps(values', ops', 3 + skobka);
      token' := token' + 2;
      values' := values' + [FromDigit('0')];
      ops' := ops' + [MakeOperator("sin", skobka)];
      num' := false;
    } else if value == 't' {
      values', ops' := PopOps(values', ops', 3 + skobka);
      token' := token' + 1;
      values' := values' + [FromDigit('0')];
      ops' := ops' + [MakeOperator("tg", skobka)];
      num' := false;
    } else if value == 'l' {
      values', ops' := PopOps(values', ops', 3 + skobka);
      token' := token' + 2;
      values' := values' + [FromDigit('0')];
      ops' := ops' + [MakeOperator("log", skobka)];
      num' := false;
    } else if value == '\'' {
      values', ops' := PopOps(values', ops', 4 + skobka);
      ops' := ops' + [MakeOperator([value], skobka)];
      num' := false;
    } else if value == '(' {
      skobka' := 5;
      num' := false;
    } else if value == ')' {
      skobka' := 0;
      num' := false;
    }
    token' := token' + 1;
  }

  /** `Parse`: the scan of one expression line. */
  method Parse(line: string) returns (root: Node)
    requires Defined(line)
    ensures Some(root) == Parsed(line)
    ensures line == [] ==> root == Value(0.0)
  {
    if |line| == 0 {
      return FromDigit('0');
    }
    var values: seq<Node> := [];
    var ops: seq<Operator> := [];
    var num := false;
    var skobka := 0;
    var token := 0;
    while token != |line|
      invariant token <= |line|
      invariant Scan(line, ScanState(values, ops, num, skobka, token)) == Scan(line, Start)
      invariant Scan(line, Start).Some?
      decreases |line| - token
    {
      values, ops, num, skobka, token := ScanToken(line, values, ops, num, skobka, token);
    }
    ghost var scanned := Stacks(values, ops);
    while |ops| != 0
      invariant Reduced(values, ops, 0) == Reduced(scanned.values, scanned.ops, 0)
      invariant Reduced(values, ops, 0).Some?
      decreases |ops|
    {
      PopCountZero(ops);
      ReducedShape(values, ops, 0);
      values, ops := PopOps(values, ops, 0);
    }
    root := Last(values);
  }
}
