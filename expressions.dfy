/** Arithmetic expressions as trees: a reference meaning for the converter
    and the evaluator of `calculator_class.py`. */
module Expressions {
  import opened Common
  import ClassPostfix
  import ClassEval

  /** A number, a unary minus, or a binary operation `+ - * / ^`. */
  datatype Expr = Lit(r: real) | Neg(e: Expr) | Bin(op: char, a: Expr, b: Expr)

  predicate WellFormed(e: Expr) {
    match e
    case Lit(_) => true
    case Neg(x) => WellFormed(x)
    case Bin(op, a, b) => IsBinaryOperator(op) && WellFormed(a) && WellFormed(b)
  }

  /** The value of an expression: operands left to right, the first error
      wins, operations as `execute_operation` performs them on floats. */
  function Denote(e: Expr): Result<real> {
    match e
    case Lit(r) => Ok(r)
    case Neg(x) =>
      (match Denote(x)
       case Err(k) => Err(k)
       case Ok(v) => Ok(-v))
    case Bin(op, a, b) =>
      match Denote(a)
      case Err(k) => Err(k)
      case Ok(x) =>
        match Denote(b)
        case Err(k) => Err(k)
        case Ok(y) =>
          match ExecuteOperation(op, Float(x), Float(y))
          case Err(k) => Err(k)
          case Ok(v) => Ok(v.Real())
  }

  /** Reverse Polish notation: operands first, then the operator; `~` for
      the unary minus. */
  function Rpn(e: Expr): seq<Token> {
    match e
    case Lit(r) => [Num(r)]
    case Neg(x) => Rpn(x) + [Sym('~')]
    case Bin(op, a, b) => Rpn(a) + Rpn(b) + [Sym(op)]
  }

  /** The fully parenthesized infix tokens of an expression. */
  function Infix(e: Expr): seq<Token> {
    match e
    case Lit(r) => [Num(r)]
    case Neg(x) => [Sym('('), Sym('~')] + Infix(x) + [Sym(')')]
    case Bin(op, a, b) => [Sym('(')] + Infix(a) + [Sym(op)] + Infix(b) + [Sym(')')]
  }

  // ---------------------------------------------------------------------
  // The evaluator computes the reference value

  /** What folding from `stack` yields once `d` has been computed. */
  function Pushed(stack: seq<Value>, d: Result<real>): ClassEval.Outcome {
    match d
    case Err(k) => ClassEval.Stop(Err(k))
    case Ok(v) => ClassEval.Continue(stack + [Float(v)])
  }

  lemma StepNeg(stack: seq<Value>, v: real)
    ensures ClassEval.Fold(stack + [Float(v)], [Sym('~')]) == ClassEval.Continue(stack + [Float(-v)])
  {
    var s := stack + [Float(v)];
    assert ClassEval.Rest(s) == stack;
    assert ClassEval.EvalStep(s, Sym('~')) == ClassEval.Continue(stack + [Float(-v)]);
  }

  lemma StepBin(stack: seq<Value>, op: char, x: real, y: real)
    requires IsBinaryOperator(op)
    ensures ExecuteOperation(op, Float(x), Float(y)).Ok? ==>
      ClassEval.Fold(stack + [Float(x)] + [Float(y)], [Sym(op)])
        == ClassEval.Continue(stack + [Float(ExecuteOperation(op, Float(x), Float(y)).value.Real())])
    ensures ExecuteOperation(op, Float(x), Float(y)).Err? ==>
      ClassEval.Fold(stack + [Float(x)] + [Float(y)], [Sym(op)])
        == ClassEval.Stop(ExecuteOperation(op, Float(x), Float(y)))
  {
    var s := stack + [Float(x)] + [Float(y)];
    assert ClassEval.Rest(s) == stack + [Float(x)];
    assert ClassEval.Rest(ClassEval.Rest(s)) == stack;
    var o := ExecuteOperation(op, Float(x), Float(y));
    if o.Ok? {
      assert o.value == Float(o.value.Real());
      assert ClassEval.EvalStep(s, Sym(op)) == ClassEval.Continue(stack + [o.value]);
    } else {
      assert ClassEval.EvalStep(s, Sym(op)) == ClassEval.Stop(o);
    }
  }

  lemma FoldNeg(stack: seq<Value>, x: Expr)
    requires ClassEval.Fold(stack, Rpn(x)) == Pushed(stack, Denote(x))
    ensures ClassEval.Fold(stack, Rpn(Neg(x))) == Pushed(stack, Denote(Neg(x)))
  {
    assert Rpn(Neg(x)) == Rpn(x) + [Sym('~')];
    match Denote(x)
    case Err(k) =>
      assert Denote(Neg(x)) == Err(k);
      ClassEval.FoldStops(stack, Rpn(x), Err(k), [Sym('~')]);
    case Ok(v) =>
      assert Denote(Neg(x)) == Ok(-v);
      ClassEval.FoldThen(stack, Rpn(x), stack + [Float(v)], [Sym('~')]);
      StepNeg(stack, v);
  }

  lemma FoldBin(stack: seq<Value>, op: char, a: Expr, b: Expr)
    requires IsBinaryOperator(op)
    requires ClassEval.Fold(stack, Rpn(a)) == Pushed(stack, Denote(a))
    requires Denote(a).Ok? ==>
      ClassEval.Fold(stack + [Float(Denote(a).value)], Rpn(b)) == Pushed(stack + [Float(Denote(a).value)], Denote(b))
    ensures ClassEval.Fold(stack, Rpn(Bin(op, a, b))) == Pushed(stack, Denote(Bin(op, a, b)))
  {
    var ab := Rpn(a) + Rpn(b);
    match Denote(a)
    case Err(k) =>
      ClassEval.FoldStops(stack, Rpn(a), Err(k), Rpn(b));
      ClassEval.FoldStops(stack, ab, Err(k), [Sym(op)]);
    case Ok(x) =>
      var sx := stack + [Float(x)];
      ClassEval.FoldThen(stack, Rpn(a), sx, Rpn(b));
      match Denote(b)
      case Err(k) =>
        ClassEval.FoldStops(stack, ab, Err(k), [Sym(op)]);
      case Ok(y) =>
        ClassEval.FoldThen(stack, ab, sx + [Float(y)], [Sym(op)]);
        StepBin(stack, op, x, y);
  }

  /** Evaluating the RPN of `e` pushes the value of `e` as a float, or
      returns the first error it meets. */
  lemma {:induction false} FoldRpn(stack: seq<Value>, e: Expr)
    requires WellFormed(e)
    ensures ClassEval.Fold(stack, Rpn(e)) == Pushed(stack, Denote(e))
    decreases e
  {
    match e
    case Lit(r) =>
      assert ClassEval.Fold(stack + [Float(r)], []) == ClassEval.Continue(stack + [Float(r)]);
    case Neg(x) =>
      FoldRpn(stack, x);
      FoldNeg(stack, x);
    case Bin(op, a, b) =>
      FoldRpn(stack, a);
      if Denote(a).Ok? {
        FoldRpn(stack + [Float(Denote(a).value)], b);
      }
      FoldBin(stack, op, a, b);
  }

  /** `calculate` on the RPN of `e` returns the value of `e`. */
  lemma EvalRpn(e: Expr)
    requires WellFormed(e)
    ensures ClassEval.Eval(Rpn(e)) == match Denote(e)
                                      case Err(k) => Err(k)
                                      case Ok(v) => Ok(Float(v))
  {
    FoldRpn([], e);
  }

  // ---------------------------------------------------------------------
  // The converter produces the RPN

  /** Pushing `(` and then an operator that outranks it. */
  lemma RunOpen(st: ClassPostfix.Shunting, op: char)
    requires AllKeys(st.stack) && IsPriorityKey(op) && op != '('
    ensures ClassPostfix.Run(st, [Sym('('), Sym(op)])
         == Ok(ClassPostfix.Shunting(st.stack + ['('] + [op], st.out))
  {
    var s1 := st.stack + ['('];
    var mid := ClassPostfix.Shunting(s1, st.out);
    assert ClassPostfix.Step(st, Sym('(')) == Ok(mid);
    assert PopWhileAtLeast(s1, Priority(op)) == ([], s1);
    assert ClassPostfix.Symbols([]) == [];
    assert st.out + [] == st.out;
    assert ClassPostfix.Step(mid, Sym(op)) == Ok(ClassPostfix.Shunting(s1 + [op], st.out));
    assert [Sym('('), Sym(op)][1..] == [Sym(op)];
    assert ClassPostfix.Run(mid, [Sym(op)]) == ClassPostfix.Run(ClassPostfix.Shunting(s1 + [op], st.out), []);
  }

  /** A `)` pops the one operator above the `(` that opens its group. */
  lemma StepClose(stack: seq<char>, out: seq<Token>, op: char)
    requires AllKeys(stack) && IsPriorityKey(op) && op != '('
    ensures ClassPostfix.Step(ClassPostfix.Shunting(stack + ['('] + [op], out), Sym(')'))
         == Ok(ClassPostfix.Shunting(stack, out + [Sym(op)]))
  {
    var s2 := stack + ['('] + [op];
    assert s2[..|s2| - 1] == stack + ['('];
    assert (stack + ['('])[..|stack|] == stack;
    assert PopToOpenParen(stack + ['(']) == Ok(([], stack));
    assert [op] + [] == [op];
    assert PopToOpenParen(s2) == Ok(([op], stack));
    assert ClassPostfix.Symbols([op]) == [Sym(op)];
  }

  /** `( ~ ts )` where `ts` appends `rpn` and leaves the stack alone. */
  lemma RunNeg(st: ClassPostfix.Shunting, ts: seq<Token>, rpn: seq<Token>)
    requires AllKeys(st.stack)
    requires ClassPostfix.Run(ClassPostfix.Shunting(st.stack + ['('] + ['~'], st.out), ts)
          == Ok(ClassPostfix.Shunting(st.stack + ['('] + ['~'], st.out + rpn))
    ensures ClassPostfix.Run(st, [Sym('('), Sym('~')] + ts + [Sym(')')])
         == Ok(ClassPostfix.Shunting(st.stack, st.out + (rpn + [Sym('~')])))
  {
    var s2 := st.stack + ['('] + ['~'];
    var open := [Sym('('), Sym('~')];
    var inner := ClassPostfix.Shunting(s2, st.out + rpn);
    RunOpen(st, '~');
    ClassPostfix.RunThen(st, open, ClassPostfix.Shunting(s2, st.out), ts, inner);
    StepClose(st.stack, st.out + rpn, '~');
    ClassPostfix.RunThenStep(st, open + ts, inner, Sym(')'),
                             ClassPostfix.Shunting(st.stack, st.out + rpn + [Sym('~')]));
    Associative3(st.out, rpn, [Sym('~')]);
  }

  lemma StepAboveOpen(stack: seq<char>, out: seq<Token>, op: char)
    requires AllKeys(stack) && IsPriorityKey(op) && op != '('
    ensures ClassPostfix.Step(ClassPostfix.Shunting(stack + ['('], out), Sym(op))
         == Ok(ClassPostfix.Shunting(stack + ['('] + [op], out))
  {
    var s1 := stack + ['('];
    assert PopWhileAtLeast(s1, Priority(op)) == ([], s1);
    assert ClassPostfix.Symbols([]) == [];
    assert out + [] == out;
  }

  /** `( ta op tb )` where `ta` appends `ra` and `tb` appends `rb`, each
      leaving the stack alone. */
  lemma RunBin(st: ClassPostfix.Shunting, op: char, ta: seq<Token>, ra: seq<Token>, tb: seq<Token>, rb: seq<Token>)
    requires AllKeys(st.stack) && IsBinaryOperator(op)
    requires ClassPostfix.Run(ClassPostfix.Shunting(st.stack + ['('], st.out), ta)
          == Ok(ClassPostfix.Shunting(st.stack + ['('], st.out + ra))
    requires ClassPostfix.Run(ClassPostfix.Shunting(st.stack + ['('] + [op], st.out + ra), tb)
          == Ok(ClassPostfix.Shunting(st.stack + ['('] + [op], st.out + ra + rb))
    ensures ClassPostfix.Run(st, [Sym('(')] + ta + [Sym(op)] + tb + [Sym(')')])
         == Ok(ClassPostfix.Shunting(st.stack, st.out + (ra + rb + [Sym(op)])))
  {
    var s1 := st.stack + ['('];
    var s2 := s1 + [op];
    var outA := st.out + ra;
    var outB := outA + rb;
    var first := [Sym('(')] + ta;
    var grouped := ClassPostfix.Shunting(s1, st.out);
    assert ClassPostfix.Run(st, [Sym('(')]) == Ok(grouped) by {
      assert ClassPostfix.Step(st, Sym('(')) == Ok(grouped);
    }
    ClassPostfix.RunThen(st, [Sym('(')], grouped, ta, ClassPostfix.Shunting(s1, outA));
    StepAboveOpen(st.stack, outA, op);
    ClassPostfix.RunThenStep(st, first, ClassPostfix.Shunting(s1, outA), Sym(op), ClassPostfix.Shunting(s2, outA));
    ClassPostfix.RunThen(st, first + [Sym(op)], ClassPostfix.Shunting(s2, outA), tb, ClassPostfix.Shunting(s2, outB));
    StepClose(st.stack, outB, op);
    ClassPostfix.RunThenStep(st, first + [Sym(op)] + tb, ClassPostfix.Shunting(s2, outB), Sym(')'),
                             ClassPostfix.Shunting(st.stack, outB + [Sym(op)]));
    Associative(st.out, ra, rb, [Sym(op)]);
  }

  /** The tokens of a fully parenthesized `e` leave the stack as they found
      it and append the RPN of `e` to the output. */
  lemma {:induction false} RunInfix(st: ClassPostfix.Shunting, e: Expr)
    requires AllKeys(st.stack) && WellFormed(e)
    ensures ClassPostfix.Run(st, Infix(e)) == Ok(ClassPostfix.Shunting(st.stack, st.out + Rpn(e)))
    decreases e
  {
    match e
    case Lit(r) =>
      assert ClassPostfix.Run(st, Infix(e)) == ClassPostfix.Run(ClassPostfix.Shunting(st.stack, st.out + [Num(r)]), []);
    case Neg(x) =>
      RunInfix(ClassPostfix.Shunting(st.stack + ['('] + ['~'], st.out), x);
      RunNeg(st, Infix(x), Rpn(x));
    case Bin(op, a, b) =>
      RunInfix(ClassPostfix.Shunting(st.stack + ['('], st.out), a);
      RunInfix(ClassPostfix.Shunting(st.stack + ['('] + [op], st.out + Rpn(a)), b);
      RunBin(st, op, Infix(a), Rpn(a), Infix(b), Rpn(b));
  }

  /** `to_postfix_notation` turns the fully parenthesized infix tokens of
      `e` into exactly the RPN of `e`. */
  lemma PostfixOfInfix(e: Expr)
    requires WellFormed(e)
    ensures ClassPostfix.Postfix(Infix(e)) == Ok(Rpn(e))
  {
    RunInfix(ClassPostfix.Shunting([], []), e);
    ClassPostfix.ShuntFromRun(ClassPostfix.Shunting([], []), Infix(e));
    assert Reverse<char>([]) == [];
    assert ClassPostfix.Symbols([]) == [];
    assert [] + Rpn(e) + [] == Rpn(e);
  }

  /** Converting and then evaluating computes the reference value. */
  lemma CalculateInfix(e: Expr)
    requires WellFormed(e)
    ensures ClassPostfix.Postfix(Infix(e)).Ok?
    ensures ClassEval.Eval(ClassPostfix.Postfix(Infix(e)).value) == match Denote(e)
                                                                    case Err(k) => Err(k)
                                                                    case Ok(v) => Ok(Float(v))
  {
    PostfixOfInfix(e);
    EvalRpn(e);
  }

  // ---------------------------------------------------------------------
  // Precedence and grouping: infix with only the parentheses it needs

  /** How tightly an expression binds: a number most, a unary minus next,
      a binary operation as its operator's priority. */
  function Prec(e: Expr): (p: nat)
    ensures WellFormed(e) ==> 1 <= p <= 5
  {
    match e
    case Lit(_) => 5
    case Neg(_) => 4
    case Bin(op, _, _) => if IsBinaryOperator(op) then Priority(op) else 0
  }

  /** The tokens `ts`, in parentheses when `tight` holds. */
  function Group(ts: seq<Token>, tight: bool): seq<Token> {
    if tight then [Sym('(')] + ts + [Sym(')')] else ts
  }

  /** The infix tokens of an expression with the fewest parentheses that
      keep its shape under the converter's rules: the left operand of a
      binary operation is grouped only when it binds more loosely than the
      operation, the right operand also when it binds equally (operators of
      equal priority group from the left), and the operand of a unary minus
      is grouped unless it is a number. */
  function MinInfix(e: Expr): seq<Token> {
    match e
    case Lit(r) => [Num(r)]
    case Neg(x) => [Sym('~')] + Group(MinInfix(x), !x.Lit?)
    case Bin(op, a, b) =>
      Group(MinInfix(a), Prec(a) < Prec(e)) + [Sym(op)] + Group(MinInfix(b), Prec(b) <= Prec(e))
  }

  /** The operators still on the stack once the tokens of `e` are read. */
  function Pending(e: Expr): (r: seq<char>)
    requires WellFormed(e)
    decreases e, 0
    ensures forall k :: 0 <= k < |r| ==> IsPriorityKey(r[k]) && Priority(r[k]) >= Prec(e)
  {
    match e
    case Lit(_) => []
    case Neg(_) => ['~']
    case Bin(op, _, b) => [op] + PendingIn(b, Prec(b) <= Prec(e))
  }

  function PendingIn(e: Expr, tight: bool): (r: seq<char>)
    requires WellFormed(e)
    decreases e, 1
    ensures forall k :: 0 <= k < |r| ==> IsPriorityKey(r[k]) && Priority(r[k]) >= Prec(e)
  {
    if tight then [] else Pending(e)
  }

  /** The output written once the tokens of `e` are read. */
  function Emitted(e: Expr): seq<Token>
    decreases e, 0
  {
    match e
    case Lit(r) => [Num(r)]
    case Neg(x) => Rpn(x)
    case Bin(_, a, b) => Rpn(a) + EmittedIn(b, Prec(b) <= Prec(e))
  }

  function EmittedIn(e: Expr, tight: bool): seq<Token>
    decreases e, 1
  {
    if tight then Rpn(e) else Emitted(e)
  }

  /** Flushing the pending operators completes the RPN. */
  lemma {:induction false} PendingFlush(e: Expr)
    requires WellFormed(e)
    ensures Emitted(e) + ClassPostfix.Symbols(Reverse(Pending(e))) == Rpn(e)
    decreases e, 0
  {
    match e
    case Lit(_) =>
      assert ClassPostfix.Symbols(Reverse<char>([])) == [];
    case Neg(x) =>
      assert Reverse(['~']) == ['~'] by { ReverseCons('~', []); }
      assert ClassPostfix.Symbols(['~']) == [Sym('~')];
    case Bin(op, a, b) =>
      var tight := Prec(b) <= Prec(e);
      var pb := PendingIn(b, tight);
      InFlush(b, tight);
      ReverseCons(op, pb);
      ClassPostfix.SymbolsAppend(Reverse(pb), [op]);
      assert ClassPostfix.Symbols([op]) == [Sym(op)];
      assert EmittedIn(b, tight) + ClassPostfix.Symbols(Reverse(pb)) == Rpn(b);
  }

  lemma InFlush(e: Expr, tight: bool)
    requires WellFormed(e)
    ensures EmittedIn(e, tight) + ClassPostfix.Symbols(Reverse(PendingIn(e, tight))) == Rpn(e)
    decreases e, 1
  {
    if tight {
      assert ClassPostfix.Symbols(Reverse<char>([])) == [];
    } else {
      PendingFlush(e);
    }
  }

  /** The entries of `s` from index `n` on have priority at least `p`
      and the entry below them, if any, a lower one: the loop pops exactly
      those. */
  lemma {:induction false} PopFrom(s: seq<char>, n: nat, p: nat)
    requires AllKeys(s) && n <= |s|
    requires forall k :: n <= k < |s| ==> Priority(s[k]) >= p
    requires n == 0 || Priority(s[n - 1]) < p
    ensures PopWhileAtLeast(s, p) == (Reverse(s[n..]), s[..n])
    decreases |s|
  {
    if |s| > n {
      var top, below := s[|s| - 1], s[..|s| - 1];
      PopFrom(below, n, p);
      assert below[..n] == s[..n];
      DropLast(s, n);
      ReverseSnoc(below[n..], top);
    }
  }

  /** The entries from index `n` on end with the last entry. */
  lemma DropLast<T>(s: seq<T>, n: nat)
    requires n < |s|
    ensures s[n..] == s[..|s| - 1][n..] + [s[|s| - 1]]
  {
    assert s[n..] == s[n..|s| - 1] + [s[|s| - 1]];
  }

  lemma PopAbove(below: seq<char>, above: seq<char>, p: nat)
    requires AllKeys(below) && AllKeys(above)
    requires forall k :: 0 <= k < |above| ==> Priority(above[k]) >= p
    requires below == [] || Priority(below[|below| - 1]) < p
    ensures PopWhileAtLeast(below + above, p) == (Reverse(above), below)
  {
    var s := below + above;
    assert s[..|below|] == below && s[|below|..] == above;
    PopFrom(s, |below|, p);
  }

  /** Entries other than `(` over a `(` are popped, and the `(` with them. */
  lemma {:induction false} PopAboveOpen(below: seq<char>, above: seq<char>)
    requires AllKeys(below) && AllKeys(above) && '(' !in above
    ensures PopToOpenParen(below + ['('] + above) == Ok((Reverse(above), below))
    decreases |above|
  {
    var s := below + ['('] + above;
    if above == [] {
      assert s[|s| - 1] == '(' && s[..|s| - 1] == below;
    } else {
      var top, rest := above[|above| - 1], above[..|above| - 1];
      assert s[|s| - 1] == top && s[..|s| - 1] == below + ['('] + rest;
      assert top in above;
      PopAboveOpen(below, rest);
      PopOpenOne(s);
      ReverseLast(above);
    }
  }

  /** One iteration of the `)` loop, over a top other than `(`. */
  lemma PopOpenOne(s: seq<char>)
    requires AllKeys(s) && |s| > 0 && s[|s| - 1] != '('
    ensures PopToOpenParen(s) == match PopToOpenParen(s[..|s| - 1])
                                 case Err(e) => Err(e)
                                 case Ok(r) => Ok(([s[|s| - 1]] + r.0, r.1))
  {
  }

  /** Tokens in parentheses: whatever they leave above the `(` is flushed
      by the `)`, and the stack below is left as found. */
  lemma ParenRun(st: ClassPostfix.Shunting, ts: seq<Token>, pend: seq<char>, em: seq<Token>, rpn: seq<Token>)
    requires AllKeys(st.stack) && AllKeys(pend) && '(' !in pend
    requires ClassPostfix.Run(ClassPostfix.Shunting(st.stack + ['('], st.out), ts)
          == Ok(ClassPostfix.Shunting(st.stack + ['('] + pend, st.out + em))
    requires em + ClassPostfix.Symbols(Reverse(pend)) == rpn
    ensures ClassPostfix.Run(st, [Sym('(')] + ts + [Sym(')')]) == Ok(ClassPostfix.Shunting(st.stack, st.out + rpn))
  {
    var start := ClassPostfix.Shunting(st.stack + ['('], st.out);
    var inner := ClassPostfix.Shunting(st.stack + ['('] + pend, st.out + em);
    assert ClassPostfix.Run(st, [Sym('(')]) == Ok(start) by {
      assert ClassPostfix.Step(st, Sym('(')) == Ok(start);
    }
    ClassPostfix.RunThen(st, [Sym('(')], start, ts, inner);
    assert ClassPostfix.Step(inner, Sym(')')) == Ok(ClassPostfix.Shunting(st.stack, st.out + rpn)) by {
      PopAboveOpen(st.stack, pend);
      Associative3(st.out, em, ClassPostfix.Symbols(Reverse(pend)));
    }
    ClassPostfix.RunThenStep(st, [Sym('(')] + ts, inner, Sym(')'), ClassPostfix.Shunting(st.stack, st.out + rpn));
  }

  /** A grouped operand, given the run of its own tokens. */
  lemma GroupRun(st: ClassPostfix.Shunting, e: Expr, tight: bool)
    requires AllKeys(st.stack) && WellFormed(e)
    requires var s := if tight then st.stack + ['('] else st.stack;
             ClassPostfix.Run(ClassPostfix.Shunting(s, st.out), MinInfix(e))
               == Ok(ClassPostfix.Shunting(s + Pending(e), st.out + Emitted(e)))
    ensures ClassPostfix.Run(st, Group(MinInfix(e), tight))
         == Ok(ClassPostfix.Shunting(st.stack + PendingIn(e, tight), st.out + EmittedIn(e, tight)))
  {
    if tight {
      var pend := Pending(e);
      assert AllKeys(pend) && '(' !in pend by {
        forall k | 0 <= k < |pend| ensures pend[k] != '(' {
          assert Priority(pend[k]) >= Prec(e) >= 1;
        }
      }
      PendingFlush(e);
      ParenRun(st, MinInfix(e), pend, Emitted(e), Rpn(e));
      assert st.stack + [] == st.stack;
    }
  }

  /** An operator between two runs: the left run leaves operators that the
      operator pops, completing the left run's output, and the right run
      starts over the pushed operator. */
  lemma OperatorBetween(st: ClassPostfix.Shunting, left: seq<Token>, pa: seq<char>, ea: seq<Token>, ra: seq<Token>,
                        op: char, right: seq<Token>, pb: seq<char>, eb: seq<Token>)
    requires AllKeys(st.stack) && AllKeys(pa) && IsPriorityKey(op) && op != '('
    requires st.stack == [] || Priority(st.stack[|st.stack| - 1]) < Priority(op)
    requires forall k :: 0 <= k < |pa| ==> Priority(pa[k]) >= Priority(op)
    requires ClassPostfix.Run(st, left) == Ok(ClassPostfix.Shunting(st.stack + pa, st.out + ea))
    requires ea + ClassPostfix.Symbols(Reverse(pa)) == ra
    requires ClassPostfix.Run(ClassPostfix.Shunting(st.stack + [op], st.out + ra), right)
          == Ok(ClassPostfix.Shunting(st.stack + [op] + pb, st.out + ra + eb))
    ensures ClassPostfix.Run(st, left + [Sym(op)] + right)
         == Ok(ClassPostfix.Shunting(st.stack + ([op] + pb), st.out + (ra + eb)))
  {
    var sa := ClassPostfix.Shunting(st.stack + pa, st.out + ea);
    var mid := ClassPostfix.Shunting(st.stack + [op], st.out + ra);
    var fin := ClassPostfix.Shunting(st.stack + [op] + pb, st.out + ra + eb);
    var flushed := ClassPostfix.Symbols(Reverse(pa));
    PopAbove(st.stack, pa, Priority(op));
    assert ClassPostfix.Step(sa, Sym(op)) == Ok(ClassPostfix.Shunting(st.stack + [op], sa.out + flushed));
    Associative3(st.out, ea, flushed);
    ClassPostfix.RunThenStep(st, left, sa, Sym(op), mid);
    ClassPostfix.RunThen(st, left + [Sym(op)], mid, right, fin);
    Associative3(st.stack, [op], pb);
    Associative3(st.out, ra, eb);
  }

  /** A unary minus over an operand that can stack on it. */
  lemma NegRun(st: ClassPostfix.Shunting, x: Expr)
    requires AllKeys(st.stack) && WellFormed(x)
    requires st.stack == [] || Priority(st.stack[|st.stack| - 1]) < 4
    requires var tight := !x.Lit?;
             ClassPostfix.Run(ClassPostfix.Shunting(st.stack + ['~'], st.out), Group(MinInfix(x), tight))
               == Ok(ClassPostfix.Shunting(st.stack + ['~'] + PendingIn(x, tight), st.out + EmittedIn(x, tight)))
    ensures ClassPostfix.Run(st, MinInfix(Neg(x)))
         == Ok(ClassPostfix.Shunting(st.stack + Pending(Neg(x)), st.out + Emitted(Neg(x))))
  {
    var tight := !x.Lit?;
    NegShape(x);
    assert st.stack + ['~'] + PendingIn(x, tight) == st.stack + ['~'];
    UnaryThen(st, Group(MinInfix(x), tight), Rpn(x));
  }

  /** A `~` over a lower top is pushed, and its operand's run follows. */
  lemma UnaryThen(st: ClassPostfix.Shunting, operand: seq<Token>, rpn: seq<Token>)
    requires AllKeys(st.stack)
    requires st.stack == [] || Priority(st.stack[|st.stack| - 1]) < 4
    requires ClassPostfix.Run(ClassPostfix.Shunting(st.stack + ['~'], st.out), operand)
          == Ok(ClassPostfix.Shunting(st.stack + ['~'], st.out + rpn))
    ensures ClassPostfix.Run(st, [Sym('~')] + operand) == Ok(ClassPostfix.Shunting(st.stack + ['~'], st.out + rpn))
  {
    var pushed := ClassPostfix.Shunting(st.stack + ['~'], st.out);
    assert ClassPostfix.Run(st, [Sym('~')]) == Ok(pushed) by {
      ClassPostfix.OperatorAtLower(st.stack, st.out, '~');
    }
    ClassPostfix.RunThen(st, [Sym('~')], pushed, operand, ClassPostfix.Shunting(st.stack + ['~'], st.out + rpn));
  }

  /** The tokens, pending operators and output of a unary minus; its operand
      is grouped unless a number, so it leaves nothing pending. */
  lemma NegShape(x: Expr)
    requires WellFormed(x)
    ensures MinInfix(Neg(x)) == [Sym('~')] + Group(MinInfix(x), !x.Lit?)
    ensures Pending(Neg(x)) == ['~'] && Emitted(Neg(x)) == Rpn(x)
    ensures PendingIn(x, !x.Lit?) == [] && EmittedIn(x, !x.Lit?) == Rpn(x)
  {
  }

  /** A binary operation whose operands can each stack on it. */
  lemma BinRun(st: ClassPostfix.Shunting, op: char, a: Expr, b: Expr)
    requires AllKeys(st.stack) && IsBinaryOperator(op) && WellFormed(a) && WellFormed(b)
    requires st.stack == [] || Priority(st.stack[|st.stack| - 1]) < Priority(op)
    requires var ta := Prec(a) < Priority(op);
             ClassPostfix.Run(st, Group(MinInfix(a), ta))
               == Ok(ClassPostfix.Shunting(st.stack + PendingIn(a, ta), st.out + EmittedIn(a, ta)))
    requires var tb := Prec(b) <= Priority(op);
             ClassPostfix.Run(ClassPostfix.Shunting(st.stack + [op], st.out + Rpn(a)), Group(MinInfix(b), tb))
               == Ok(ClassPostfix.Shunting(st.stack + [op] + PendingIn(b, tb), st.out + Rpn(a) + EmittedIn(b, tb)))
    ensures ClassPostfix.Run(st, MinInfix(Bin(op, a, b)))
         == Ok(ClassPostfix.Shunting(st.stack + Pending(Bin(op, a, b)), st.out + Emitted(Bin(op, a, b))))
  {
    var ta, tb := Prec(a) < Priority(op), Prec(b) <= Priority(op);
    var pa := PendingIn(a, ta);
    assert forall k :: 0 <= k < |pa| ==> Priority(pa[k]) >= Priority(op);
    InFlush(a, ta);
    OperatorBetween(st, Group(MinInfix(a), ta), pa, EmittedIn(a, ta), Rpn(a),
                    op, Group(MinInfix(b), tb), PendingIn(b, tb), EmittedIn(b, tb));
    BinShape(op, a, b);
  }

  /** The tokens, pending operators and output of a binary operation. */
  lemma BinShape(op: char, a: Expr, b: Expr)
    requires IsBinaryOperator(op) && WellFormed(a) && WellFormed(b)
    ensures var ta, tb := Prec(a) < Priority(op), Prec(b) <= Priority(op);
            && MinInfix(Bin(op, a, b)) == Group(MinInfix(a), ta) + [Sym(op)] + Group(MinInfix(b), tb)
            && Pending(Bin(op, a, b)) == [op] + PendingIn(b, tb)
            && Emitted(Bin(op, a, b)) == Rpn(a) + EmittedIn(b, tb)
  {
  }

  /** Reading the tokens of `e` over a stack whose top binds more loosely
      than `e` leaves that stack in place, with the pending operators of
      `e` above it, and writes what `e` emits. */
  lemma {:induction false} RunMin(st: ClassPostfix.Shunting, e: Expr)
    requires AllKeys(st.stack) && WellFormed(e)
    requires st.stack == [] || Priority(st.stack[|st.stack| - 1]) < Prec(e)
    ensures ClassPostfix.Run(st, MinInfix(e))
         == Ok(ClassPostfix.Shunting(st.stack + Pending(e), st.out + Emitted(e)))
    decreases e, 0
  {
    match e
    case Lit(r) =>
      assert ClassPostfix.Run(st, [Num(r)]) == ClassPostfix.Run(ClassPostfix.Shunting(st.stack, st.out + [Num(r)]), []);
      assert st.stack + [] == st.stack;
    case Neg(x) =>
      OperandRun(ClassPostfix.Shunting(st.stack + ['~'], st.out), x, !x.Lit?);
      NegRun(st, x);
    case Bin(op, a, b) =>
      OperandRun(st, a, Prec(a) < Prec(e));
      OperandRun(ClassPostfix.Shunting(st.stack + [op], st.out + Rpn(a)), b, Prec(b) <= Prec(e));
      BinRun(st, op, a, b);
  }

  /** An operand, in parentheses when `tight` holds: then it may stand over
      any stack, and otherwise over one whose top binds more loosely. */
  lemma {:induction false} OperandRun(st: ClassPostfix.Shunting, e: Expr, tight: bool)
    requires AllKeys(st.stack) && WellFormed(e)
    requires tight || st.stack == [] || Priority(st.stack[|st.stack| - 1]) < Prec(e)
    ensures ClassPostfix.Run(st, Group(MinInfix(e), tight))
         == Ok(ClassPostfix.Shunting(st.stack + PendingIn(e, tight), st.out + EmittedIn(e, tight)))
    decreases e, 1
  {
    if tight {
      RunMin(ClassPostfix.Shunting(st.stack + ['('], st.out), e);
    } else {
      RunMin(st, e);
    }
    GroupRun(st, e, tight);
  }

  /** `to_postfix_notation` turns the minimally parenthesized infix tokens
      of `e` into exactly the RPN of `e`: the priority table and the `>=`
      pop rule give precedence, and equal priorities group from the left. */
  lemma PostfixOfMinInfix(e: Expr)
    requires WellFormed(e)
    ensures ClassPostfix.Postfix(MinInfix(e)) == Ok(Rpn(e))
  {
    var start := ClassPostfix.Shunting([], []);
    RunMin(start, e);
    ClassPostfix.ShuntFromRun(start, MinInfix(e));
    PendingFlush(e);
    assert [] + Pending(e) == Pending(e) && [] + Emitted(e) == Emitted(e);
  }

  /** Converting and then evaluating the minimally parenthesized tokens
      computes the reference value. */
  lemma CalculateMinInfix(e: Expr)
    requires WellFormed(e)
    ensures ClassPostfix.Postfix(MinInfix(e)).Ok?
    ensures ClassEval.Eval(ClassPostfix.Postfix(MinInfix(e)).value) == match Denote(e)
                                                                       case Err(k) => Err(k)
                                                                       case Ok(v) => Ok(Float(v))
  {
    PostfixOfMinInfix(e);
    EvalRpn(e);
  }

  /** `x op1 y op2 z` when `op1` binds at least as tightly: `(x op1 y) op2 z`. */
  lemma ChainLeft(x: real, op1: char, y: real, op2: char, z: real)
    requires IsBinaryOperator(op1) && IsBinaryOperator(op2) && Priority(op1) >= Priority(op2)
    ensures ClassPostfix.Postfix([Num(x), Sym(op1), Num(y), Sym(op2), Num(z)])
         == Ok([Num(x), Num(y), Sym(op1), Num(z), Sym(op2)])
  {
    var first := Bin(op1, Lit(x), Lit(y));
    var e := Bin(op2, first, Lit(z));
    assert MinInfix(first) == [Num(x), Sym(op1), Num(y)] by { BinShape(op1, Lit(x), Lit(y)); }
    assert MinInfix(e) == MinInfix(first) + [Sym(op2)] + [Num(z)] by { BinShape(op2, first, Lit(z)); }
    assert Rpn(first) == [Num(x), Num(y), Sym(op1)];
    assert Rpn(e) == Rpn(first) + [Num(z)] + [Sym(op2)];
    assert MinInfix(e) == [Num(x), Sym(op1), Num(y), Sym(op2), Num(z)];
    assert Rpn(e) == [Num(x), Num(y), Sym(op1), Num(z), Sym(op2)];
    PostfixOfMinInfix(e);
  }

  /** `x op1 y op2 z` when `op2` binds more tightly: `x op1 (y op2 z)`. */
  lemma ChainRight(x: real, op1: char, y: real, op2: char, z: real)
    requires IsBinaryOperator(op1) && IsBinaryOperator(op2) && Priority(op1) < Priority(op2)
    ensures ClassPostfix.Postfix([Num(x), Sym(op1), Num(y), Sym(op2), Num(z)])
         == Ok([Num(x), Num(y), Num(z), Sym(op2), Sym(op1)])
  {
    var second := Bin(op2, Lit(y), Lit(z));
    var e := Bin(op1, Lit(x), second);
    assert MinInfix(second) == [Num(y), Sym(op2), Num(z)] by { BinShape(op2, Lit(y), Lit(z)); }
    assert MinInfix(e) == [Num(x)] + [Sym(op1)] + MinInfix(second) by { BinShape(op1, Lit(x), second); }
    assert Rpn(second) == [Num(y), Num(z), Sym(op2)];
    assert Rpn(e) == [Num(x)] + Rpn(second) + [Sym(op1)];
    assert MinInfix(e) == [Num(x), Sym(op1), Num(y), Sym(op2), Num(z)];
    assert Rpn(e) == [Num(x), Num(y), Num(z), Sym(op2), Sym(op1)];
    PostfixOfMinInfix(e);
  }

  /** `x op1 y op2 z`: the first operator is applied first when its
      priority is at least the second's, and last otherwise. */
  lemma ChainOfThree(x: real, op1: char, y: real, op2: char, z: real)
    requires IsBinaryOperator(op1) && IsBinaryOperator(op2)
    ensures ClassPostfix.Postfix([Num(x), Sym(op1), Num(y), Sym(op2), Num(z)])
         == Ok(if Priority(op1) >= Priority(op2)
               then [Num(x), Num(y), Sym(op1), Num(z), Sym(op2)]
               else [Num(x), Num(y), Num(z), Sym(op2), Sym(op1)])
  {
    if Priority(op1) >= Priority(op2) {
      ChainLeft(x, op1, y, op2, z);
    } else {
      ChainRight(x, op1, y, op2, z);
    }
  }

  /** Subtraction groups from the left: `10-3-2` is `(10-3)-2`. */
  lemma SubtractionGroupsLeft()
    ensures ClassPostfix.Postfix([Num(10.0), Sym('-'), Num(3.0), Sym('-'), Num(2.0)])
         == Ok([Num(10.0), Num(3.0), Sym('-'), Num(2.0), Sym('-')])
    ensures ClassEval.Eval([Num(10.0), Num(3.0), Sym('-'), Num(2.0), Sym('-')]) == Ok(Float(5.0))
  {
    ChainOfThree(10.0, '-', 3.0, '-', 2.0);
    var e := Bin('-', Bin('-', Lit(10.0), Lit(3.0)), Lit(2.0));
    assert Rpn(e) == [Num(10.0), Num(3.0), Sym('-'), Num(2.0), Sym('-')];
    EvalRpn(e);
  }

  /** So does the power: `2^3^2` is `(2^3)^2 = 64`, not `2^9`. */
  lemma PowerGroupsLeft()
    ensures ClassPostfix.Postfix([Num(2.0), Sym('^'), Num(3.0), Sym('^'), Num(2.0)])
         == Ok([Num(2.0), Num(3.0), Sym('^'), Num(2.0), Sym('^')])
    ensures ClassEval.Eval([Num(2.0), Num(3.0), Sym('^'), Num(2.0), Sym('^')]) == Ok(Float(64.0))
  {
    ChainOfThree(2.0, '^', 3.0, '^', 2.0);
    var e := Bin('^', Bin('^', Lit(2.0), Lit(3.0)), Lit(2.0));
    assert Rpn(e) == [Num(2.0), Num(3.0), Sym('^'), Num(2.0), Sym('^')];
    assert Power(Float(2.0), Float(3.0)) == Ok(Float(8.0)) by {
      assert (3.0).Floor == 3;
      assert RealPow(2.0, 3) == 8.0;
    }
    assert Power(Float(8.0), Float(2.0)) == Ok(Float(64.0)) by {
      assert (2.0).Floor == 2;
      assert RealPow(8.0, 2) == 64.0;
    }
    assert Denote(e) == Ok(64.0);
    EvalRpn(e);
  }

  /** A higher priority on the right is applied first: `7+5*3`. */
  lemma ProductBeforeSum()
    ensures ClassPostfix.Postfix([Num(7.0), Sym('+'), Num(5.0), Sym('*'), Num(3.0)])
         == Ok([Num(7.0), Num(5.0), Num(3.0), Sym('*'), Sym('+')])
  {
    ChainOfThree(7.0, '+', 5.0, '*', 3.0);
  }

  lemma DoubleMinusShunt()
    ensures ClassPostfix.Step(ClassPostfix.Shunting([], []), Sym('~')) == Ok(ClassPostfix.Shunting(['~'], []))
    ensures ClassPostfix.Step(ClassPostfix.Shunting(['~'], []), Sym('~'))
         == Ok(ClassPostfix.Shunting(['~'], [Sym('~')]))
  {
    assert [] + ['~'] == ['~'];
    ClassPostfix.OperatorAtLower([], [], '~');
    ClassPostfix.OperatorPopsOne(['~'], [], '~');
    assert ['~'][..0] == [] && [] + [Sym('~')] == [Sym('~')];
    ClassPostfix.OperatorAtLower([], [Sym('~')], '~');
  }

  lemma DoubleMinusPostfix()
    ensures ClassPostfix.Postfix([Sym('~'), Sym('~'), Num(5.0)]) == Ok([Sym('~'), Num(5.0), Sym('~')])
  {
    var start := ClassPostfix.Shunting([], []);
    var one := ClassPostfix.Shunting(['~'], []);
    var two := ClassPostfix.Shunting(['~'], [Sym('~')]);
    var three := ClassPostfix.Shunting(['~'], [Sym('~'), Num(5.0)]);
    var ts := [Sym('~'), Sym('~'), Num(5.0)];
    DoubleMinusShunt();
    assert ClassPostfix.ShuntFrom(start, ts) == ClassPostfix.ShuntFrom(one, ts[1..]) by {
      ClassPostfix.ShuntFromStep(start, ts);
    }
    assert ClassPostfix.ShuntFrom(one, ts[1..]) == ClassPostfix.ShuntFrom(two, ts[2..]) by {
      ClassPostfix.ShuntFromStep(one, ts[1..]);
      assert ts[1..][1..] == ts[2..];
    }
    assert ClassPostfix.ShuntFrom(two, ts[2..]) == ClassPostfix.ShuntFrom(three, []) by {
      assert ClassPostfix.Step(two, Num(5.0)) == Ok(three) by {
        assert [Sym('~')] + [Num(5.0)] == [Sym('~'), Num(5.0)];
      }
      ClassPostfix.ShuntFromStep(two, ts[2..]);
      assert ts[2..][1..] == [];
    }
    DoubleMinusFlush();
  }

  lemma DoubleMinusFlush()
    ensures ClassPostfix.ShuntFrom(ClassPostfix.Shunting(['~'], [Sym('~'), Num(5.0)]), [])
         == Ok([Sym('~'), Num(5.0), Sym('~')])
  {
    ReverseCons('~', []);
    assert Reverse(['~']) == ['~'];
    assert ClassPostfix.Symbols(['~']) == [Sym('~')];
    assert [Sym('~'), Num(5.0)] + [Sym('~')] == [Sym('~'), Num(5.0), Sym('~')];
  }

  lemma DoubleMinusEval()
    ensures ClassEval.Eval([Sym('~'), Num(5.0), Sym('~')]) == Ok(Float(-5.0))
  {
    var ps := [Sym('~'), Num(5.0), Sym('~')];
    assert ClassEval.EvalStep([], Sym('~')) == ClassEval.Continue([Int(0)]);
    assert ClassEval.EvalStep([Int(0)], Num(5.0)) == ClassEval.Continue([Int(0), Float(5.0)]) by {
      assert [Int(0)] + [Float(5.0)] == [Int(0), Float(5.0)];
    }
    assert ClassEval.EvalStep([Int(0), Float(5.0)], Sym('~')) == ClassEval.Continue([Int(0), Float(-5.0)]) by {
      assert ClassEval.Rest([Int(0), Float(5.0)]) == [Int(0)];
      assert [Int(0)] + [Float(-5.0)] == [Int(0), Float(-5.0)];
    }
    ClassEval.FoldAt([], ps, 0);
    ClassEval.FoldAt([Int(0)], ps, 1);
    ClassEval.FoldAt([Int(0), Float(5.0)], ps, 2);
    assert ps[0..] == ps && ps[3..] == [];
  }

  /** Why the operand of a unary minus is grouped unless it is a number:
      a second `~` pops the first one before its operand is read, so `~ ~ 5`
      becomes `~ 5 ~`, and the first minus negates the default 0. */
  lemma DoubleMinusNotCancelled()
    ensures ClassPostfix.Postfix([Sym('~'), Sym('~'), Num(5.0)]) == Ok([Sym('~'), Num(5.0), Sym('~')])
    ensures ClassEval.Eval([Sym('~'), Num(5.0), Sym('~')]) == Ok(Float(-5.0))
  {
    DoubleMinusPostfix();
    DoubleMinusEval();
  }
}
