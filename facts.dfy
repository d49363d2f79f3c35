/** General properties of the scan: digit runs read as decimal numbers, the
    width of every token, and the flat parenthesis bias. */
module ScanFacts {
  import opened Nodes
  import opened Parser

  function Pow10(n: nat): (r: nat)
    ensures r >= 1
  {
    if n == 0 then 1 else 10 * Pow10(n - 1)
  }

  /** The positional reading of a digit string: the first digit weighs
      10 to the number of digits after it. */
  function DecimalReading(ds: string): int {
    if ds == [] then 0
    else DigitValue(ds[0]) * Pow10(|ds| - 1) + DecimalReading(ds[1..])
  }

  /** Appending a digit multiplies the reading by ten and adds the digit,
      which is what `Increase` does to a literal. */
  lemma {:induction false} DecimalAppend(ds: string, d: char)
    ensures DecimalReading(ds + [d]) == DecimalReading(ds) * 10 + DigitValue(d)
  {
    if ds == [] {
      assert [d][1..] == [];
    } else {
      var w := ds + [d];
      assert w[0] == ds[0] && w[1..] == ds[1..] + [d];
      DecimalAppend(ds[1..], d);
      calc {
        DecimalReading(w);
        DigitValue(ds[0]) * Pow10(|ds|) + DecimalReading(ds[1..] + [d]);
        DigitValue(ds[0]) * (10 * Pow10(|ds| - 1)) + DecimalReading(ds[1..]) * 10 + DigitValue(d);
        { assert DigitValue(ds[0]) * (10 * Pow10(|ds| - 1)) == DigitValue(ds[0]) * Pow10(|ds| - 1) * 10; }
        (DigitValue(ds[0]) * Pow10(|ds| - 1) + DecimalReading(ds[1..])) * 10 + DigitValue(d);
      }
    }
  }

  predicate DigitsAndSpaces(s: string) {
    forall i | 0 <= i < |s| :: IsDigit(s[i]) || s[i] == ' '
  }

  /** The digits of `s`, in order, without the spaces. */
  function Digits(s: string): (ds: string)
    ensures forall i | 0 <= i < |ds| :: IsDigit(ds[i])
  {
    if s == [] then []
    else Digits(s[..|s| - 1]) + (if IsDigit(Last(s)) then [Last(s)] else [])
  }

  /** The scan state once a run of digits and spaces from `st.pos` up to
      `i` has been read, starting from `st` outside a literal: one more
      operand, the literal of the digits read so far, if any. */
  function RunState(line: string, st: ScanState, i: nat): ScanState
    requires st.pos <= i <= |line|
  {
    var ds := Digits(line[st.pos..i]);
    if ds == [] then st.(pos := i)
    else st.(values := st.values + [Value(DecimalReading(ds) as real)], num := true, pos := i)
  }

  lemma DigitsSnoc(line: string, p: nat, i: nat)
    requires p <= i < |line|
    ensures Digits(line[p..i + 1]) == Digits(line[p..i]) + (if IsDigit(line[i]) then [line[i]] else [])
  {
    assert line[p..i + 1][..i - p] == line[p..i];
  }

  lemma SpaceStep(line: string, st: ScanState, i: nat)
    requires !st.num && st.pos <= i < |line| && line[i] == ' '
    ensures Step(line, RunState(line, st, i)) == Some(RunState(line, st, i + 1))
  {
    DigitsSnoc(line, st.pos, i);
    assert Digits(line[st.pos..i]) + [] == Digits(line[st.pos..i]);
  }

  lemma DigitStep(line: string, st: ScanState, i: nat)
    requires !st.num && st.pos <= i < |line| && IsDigit(line[i])
    ensures Step(line, RunState(line, st, i)) == Some(RunState(line, st, i + 1))
  {
    var cur, c := RunState(line, st, i), line[i];
    DigitsSnoc(line, st.pos, i);
    var ds, next := Digits(line[st.pos..i]), RunState(line, st, i + 1);
    if ds == [] {
      assert Digits(line[st.pos..i + 1]) == [c] && [c][1..] == [];
      assert DecimalReading([c]) == DigitValue(c);
    } else {
      DecimalAppend(ds, c);
      assert cur.values[..|cur.values| - 1] == st.values;
      assert next.values == st.values + [Value((DecimalReading(ds) * 10 + DigitValue(c)) as real)];
    }
    assert Step(line, cur).value.values == next.values;
  }

  /** A defined step leaves the rest of the scan to the next state. */
  lemma ScanStep(line: string, a: ScanState, b: ScanState)
    requires a.pos < |line| && Step(line, a) == Some(b)
    ensures Scan(line, a) == Scan(line, b)
  {
  }

  /** One character of the run, seen from the scan of the rest of the line. */
  lemma RunAdvance(line: string, st: ScanState, i: nat)
    requires !st.num && st.pos <= i < |line| && (IsDigit(line[i]) || line[i] == ' ')
    ensures Scan(line, RunState(line, st, i)) == Scan(line, RunState(line, st, i + 1))
  {
    if IsDigit(line[i]) {
      DigitStep(line, st, i);
    } else {
      SpaceStep(line, st, i);
    }
    ScanStep(line, RunState(line, st, i), RunState(line, st, i + 1));
  }

  /** Reading a run of digits and spaces in one go: from the state after
      `i` characters of the run, the scan goes on as from the state after
      all of it. */
  lemma {:induction false} RunScan(line: string, st: ScanState, i: nat, j: nat)
    requires !st.num && st.pos <= i <= j <= |line|
    requires forall k | i <= k < j :: IsDigit(line[k]) || line[k] == ' '
    decreases j - i
    ensures Scan(line, RunState(line, st, i)) == Scan(line, RunState(line, st, j))
  {
    if i < j {
      RunAdvance(line, st, i);
      RunScan(line, st, i + 1, j);
    }
  }

  /** A run of digits, with or without spaces between them, read from a
      state outside a literal, pushes one literal whose value is the
      decimal reading of the digits, and leaves the operators and the bias
      as they were. */
  lemma DigitRunFrom(line: string, st: ScanState, j: nat)
    requires !st.num && st.pos <= j <= |line| && DigitsAndSpaces(line[st.pos..j])
    requires Digits(line[st.pos..j]) != []
    ensures Scan(line, st) == Scan(line, st.(values := st.values + [Value(DecimalReading(Digits(line[st.pos..j])) as real)],
                                              num := true, pos := j))
  {
    assert line[st.pos..st.pos] == [];
    assert RunState(line, st, st.pos) == st;
    assert forall k | st.pos <= k < j :: line[k] == line[st.pos..j][k - st.pos];
    RunScan(line, st, st.pos, j);
  }

  /** A line of digits and spaces parses to one literal whose value is the
      decimal reading of its digits. */
  lemma DigitRun(s: string)
    requires DigitsAndSpaces(s) && Digits(s) != []
    ensures Parsed(s) == Some(Value(DecimalReading(Digits(s)) as real))
  {
    assert s[0..|s|] == s;
    DigitRunFrom(s, Start, |s|);
  }

  /** Each token occupies `TokenWidth` characters, and a token that does not
      fit in what is left of the line makes the scan undefined. */
  lemma StepWidth(line: string, st: ScanState)
    requires st.pos < |line|
    ensures Step(line, st).Some? ==> Step(line, st).value.pos == st.pos + TokenWidth(line[st.pos])
    ensures st.pos + TokenWidth(line[st.pos]) > |line| ==> Step(line, st).None?
  {
  }

  /** `e` and `x` push their leaf and take one character; `p` pushes pi and
      takes two, so it needs a second character. */
  lemma LeafTokens(line: string, st: ScanState)
    requires st.pos < |line|
    ensures line[st.pos] == 'e' ==>
      Step(line, st) == Some(st.(values := st.values + [Value(E)], num := false, pos := st.pos + 1))
    ensures line[st.pos] == 'x' ==>
      Step(line, st) == Some(st.(values := st.values + [Variable], num := false, pos := st.pos + 1))
    ensures line[st.pos] == 'p' ==>
      (Step(line, st).Some? <==> st.pos + 2 <= |line|) &&
      (Step(line, st).Some? ==>
         Step(line, st).value == st.(values := st.values + [Value(Pi)], num := false, pos := st.pos + 2))
  {
  }

  /** The bias is 0 or 5 and every pending operator ranks between 1 and 9,
      so the byte that stores a rank never wraps. */
  predicate Ranked(st: ScanState) {
    (st.skobka == 0 || st.skobka == 5) &&
    forall j | 0 <= j < |st.ops| :: 1 <= st.ops[j].precedence <= 9
  }

  lemma RankInRange(tag: string, skobka: int)
    requires skobka == 0 || skobka == 5
    ensures 1 <= MakeOperator(tag, skobka).precedence <= 9
  {
  }

  lemma PushOperatorKeepsRanked(st: ScanState, tag: string, threshold: int)
    requires Ranked(st) && PushOperator(st, tag, threshold).Some?
    ensures Ranked(PushOperator(st, tag, threshold).value)
  {
    ReducedShape(st.values, st.ops, threshold);
    RankInRange(tag, st.skobka);
  }

  lemma PushFunctionKeepsRanked(line: string, st: ScanState, tag: Option<string>, width: nat)
    requires Ranked(st) && PushFunction(line, st, tag, width).Some?
    ensures Ranked(PushFunction(line, st, tag, width).value)
  {
    ReducedShape(st.values, st.ops, 3 + st.skobka);
    var red := Reduced(st.values, st.ops, 3 + st.skobka).value;
    assert forall j | 0 <= j < |red.ops| :: red.ops[j] == st.ops[j];
    var ops := PushFunction(line, st, tag, width).value.ops;
    if tag.Some? {
      RankInRange(tag.value, st.skobka);
      assert ops == red.ops + [MakeOperator(tag.value, st.skobka)];
    } else {
      assert ops == red.ops;
    }
  }

  lemma OperatorStepKeepsRanked(line: string, st: ScanState)
    requires st.pos < |line| && Ranked(st) && Step(line, st).Some?
    requires line[st.pos] in "*/+-'"
    ensures Ranked(Step(line, st).value)
  {
    var c := line[st.pos];
    if c == '*' || c == '/' {
      PushOperatorKeepsRanked(st, [c], 2 + st.skobka);
    } else if c == '+' || c == '-' {
      PushOperatorKeepsRanked(st, [c], 1 + st.skobka);
    } else {
      PushOperatorKeepsRanked(st, [c], 4 + st.skobka);
    }
  }

  lemma FunctionStepKeepsRanked(line: string, st: ScanState)
    requires st.pos < |line| && Ranked(st) && Step(line, st).Some?
    requires line[st.pos] in "cstl"
    ensures Ranked(Step(line, st).value)
  {
    var c := line[st.pos];
    if c == 'c' {
      var tag := if st.pos + 1 < |line| && line[st.pos + 1] == 'o' then Some("cos")
                 else if st.pos + 1 < |line| && line[st.pos + 1] == 't' then Some("ctg")
                 else None;
      PushFunctionKeepsRanked(line, st, tag, 3);
    } else if c == 's' {
      PushFunctionKeepsRanked(line, st, Some("sin"), 3);
    } else if c == 't' {
      PushFunctionKeepsRanked(line, st, Some("tg"), 2);
    } else {
      PushFunctionKeepsRanked(line, st, Some("log"), 3);
    }
  }

  lemma StepKeepsRanked(line: string, st: ScanState)
    requires st.pos < |line| && Ranked(st) && Step(line, st).Some?
    ensures Ranked(Step(line, st).value)
  {
    var c := line[st.pos];
    if c in "*/+-'" {
      OperatorStepKeepsRanked(line, st);
    } else if c in "cstl" {
      FunctionStepKeepsRanked(line, st);
    }
  }

  lemma {:induction false} ScanKeepsRanked(line: string, st: ScanState)
    requires st.pos <= |line| && Ranked(st)
    decreases |line| - st.pos
    ensures Scan(line, st).Some? ==> Ranked(Scan(line, st).value)
  {
    if st.pos < |line| && Step(line, st).Some? {
      StepKeepsRanked(line, st);
      ScanKeepsRanked(line, Step(line, st).value);
    }
  }

  /** Whatever the line, the scan ends with the bias at 0 or 5 and every
      pending rank between 1 and 9; resolving then leaves as many operands
      as there were more operands than operators. */
  lemma BiasIsFlat(line: string)
    ensures Scan(line, Start).Some? ==> Ranked(Scan(line, Start).value)
    ensures Resolved(line).Some? ==>
      |Resolved(line).value.values| == |Scan(line, Start).value.values| - |Scan(line, Start).value.ops|
  {
    ScanKeepsRanked(line, Start);
    if Scan(line, Start).Some? {
      var st := Scan(line, Start).value;
      ReducedShape(st.values, st.ops, 0);
    }
  }
}
