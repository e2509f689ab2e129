/** The postfix evaluator of `calculator_class.py` (`calculate`). */
module ClassEval {
  import opened Common

  /** What one token does to the value stack: the loop goes on with a new
      stack, or `calculate` returns at once. */
  datatype Outcome = Continue(stack: seq<Value>) | Stop(result: Result<Value>)

  /** `stack.pop() if stack else 0`: the value taken from the top. */
  function Top(stack: seq<Value>): Value {
    if |stack| > 0 then stack[|stack| - 1] else Int(0)
  }

  /** The stack once that value is taken. */
  function Rest(stack: seq<Value>): (r: seq<Value>)
    ensures |r| == if |stack| > 0 then |stack| - 1 else 0
    ensures r == stack[..|r|]
  {
    if |stack| > 0 then stack[..|stack| - 1] else []
  }

  /** The loop body of `calculate` for one token. */
  function EvalStep(stack: seq<Value>, t: Token): (r: Outcome)
    // a number pushes one float
    ensures t.Num? ==> r == Continue(stack + [Float(t.value)])
    // a symbol that is no priority key is skipped
    ensures t.Sym? && !IsPriorityKey(t.symbol) ==> r == Continue(stack)
    // `~` replaces the top (0 on an empty stack) by its negation
    ensures t == Sym('~') ==>
      (r.Continue? && |r.stack| > 0
       && r.stack[..|r.stack| - 1] == Rest(stack)
       && r.stack[|r.stack| - 1].Real() == -Top(stack).Real()
       && (r.stack[|r.stack| - 1].Float? <==> Top(stack).Float?))
    // a binary key pops `second` then `first` and pushes one float result
    // over the untouched deeper entries, or returns whatever else it gets
    ensures t.Sym? && IsPriorityKey(t.symbol) && t.symbol != '~' ==>
      var o := ExecuteOperation(t.symbol, Top(Rest(stack)), Top(stack));
      (r.Continue? <==> o.Ok? && o.value.Float?)
      && (r.Continue? ==> r.stack == Rest(Rest(stack)) + [o.value])
      && (r.Stop? ==> r.result == o)
    // a `(` left over by the converter is an unsupported operation
    ensures t == Sym('(') ==> r == Stop(Err(NotSupported))
  {
    match t
    case Num(v) => Continue(stack + [Float(v)])
    case Sym(c) =>
      if !IsPriorityKey(c) then Continue(stack)
      else if c == '~' then
        Continue(Rest(stack) + [ExecuteOperation('-', Int(0), Top(stack)).value])
      else
        var second, first := Top(stack), Top(Rest(stack));
        var outcome := ExecuteOperation(c, first, second);
        if outcome.Ok? && outcome.value.Float? then Continue(Rest(Rest(stack)) + [outcome.value])
        else Stop(outcome)
  }

  /** The loop of `calculate` over the tokens. */
  function Fold(stack: seq<Value>, ts: seq<Token>): Outcome
    decreases |ts|
  {
    if ts == [] then Continue(stack)
    else
      match EvalStep(stack, ts[0])
      case Stop(r) => Stop(r)
      case Continue(next) => Fold(next, ts[1..])
  }

  /** The final `calculation_stack.pop()`: the top value, residual entries
      ignored; it fails on an empty stack. */
  function Finish(o: Outcome): (r: Result<Value>)
    ensures o.Continue? ==> (r.Err? <==> o.stack == [])
    ensures o.Continue? && r.Err? ==> r.error == PopFromEmpty
    ensures o.Continue? && r.Ok? ==> r.value == o.stack[|o.stack| - 1]
  {
    match o
    case Stop(r) => r
    case Continue(s) => if s == [] then Err(PopFromEmpty) else Ok(s[|s| - 1])
  }

  /** The result of `calculate` on a postfix token sequence. */
  function Eval(ts: seq<Token>): Result<Value> {
    Finish(Fold([], ts))
  }

  lemma FoldStep(stack: seq<Value>, ts: seq<Token>)
    requires ts != []
    ensures Fold(stack, ts) == match EvalStep(stack, ts[0])
                               case Stop(r) => Stop(r)
                               case Continue(next) => Fold(next, ts[1..])
  {
  }

  /** The loop from the token at index `k` on, one step at a time. */
  lemma FoldAt(stack: seq<Value>, p: seq<Token>, k: nat)
    requires k < |p|
    ensures Fold(stack, p[k..]) == match EvalStep(stack, p[k])
                                   case Stop(r) => Stop(r)
                                   case Continue(next) => Fold(next, p[k + 1..])
  {
    FoldStep(stack, p[k..]);
    assert p[k..][1..] == p[k + 1..];
  }

  /** `calculate`: evaluates a postfix token sequence on a value stack. */
  method Calculate(postfix: seq<Token>) returns (r: Result<Value>)
    ensures r == Eval(postfix)
  {
    var stack: seq<Value> := [];
    for idx := 0 to |postfix|
      invariant Finish(Fold(stack, postfix[idx..])) == Eval(postfix)
    {
      var element := postfix[idx];
      FoldAt(stack, postfix, idx);
      if element.Num? {
        stack := stack + [Float(element.value)];
      } else if IsPriorityKey(element.symbol) {
        if element.symbol == '~' {
          var last: Value;
          if |stack| > 0 {
            last := stack[|stack| - 1];
            stack := stack[..|stack| - 1];
          } else {
            last := Int(0);
          }
          var negated := ExecuteOperation('-', Int(0), last);
          stack := stack + [negated.value];
          continue;
        }
        var second: Value;
        if |stack| > 0 {
          second := stack[|stack| - 1];
          stack := stack[..|stack| - 1];
        } else {
          second := Int(0);
        }
        var first: Value;
        if |stack| > 0 {
          first := stack[|stack| - 1];
          stack := stack[..|stack| - 1];
        } else {
          first := Int(0);
        }
        var outcome := ExecuteOperation(element.symbol, first, second);
        if outcome.Ok? && outcome.value.Float? {
          stack := stack + [outcome.value];
        } else {
          return outcome;
        }
      }
    }
    if |stack| == 0 {
      return Err(PopFromEmpty);
    }
    r := Ok(stack[|stack| - 1]);
  }

  // ---------------------------------------------------------------------
  // Properties of the evaluator

  /** Folding a concatenation folds the second part from where the first
      left the stack, unless the first part already returned. */
  lemma {:induction false} FoldAppend(stack: seq<Value>, a: seq<Token>, b: seq<Token>)
    ensures Fold(stack, a + b) == match Fold(stack, a)
                                  case Stop(r) => Stop(r)
                                  case Continue(mid) => Fold(mid, b)
    decreases |a|
  {
    if a == [] {
      assert a + b == b;
    } else {
      assert (a + b)[1..] == a[1..] + b;
      match EvalStep(stack, a[0])
      case Stop(_) =>
      case Continue(next) => FoldAppend(next, a[1..], b);
    }
  }

  lemma FoldThen(stack: seq<Value>, a: seq<Token>, mid: seq<Value>, b: seq<Token>)
    requires Fold(stack, a) == Continue(mid)
    ensures Fold(stack, a + b) == Fold(mid, b)
  {
    FoldAppend(stack, a, b);
  }

  lemma FoldStops(stack: seq<Value>, a: seq<Token>, r: Result<Value>, b: seq<Token>)
    requires Fold(stack, a) == Stop(r)
    ensures Fold(stack, a + b) == Stop(r)
  {
    FoldAppend(stack, a, b);
  }

  /** `calculate` returns early only with an error or with a value that is
      not a float (a binary operation on two defaulted int operands). */
  lemma {:induction false} EarlyReturnIsNotFloat(stack: seq<Value>, ts: seq<Token>)
    ensures Fold(stack, ts).Stop? ==> Fold(stack, ts).result.Err? || Fold(stack, ts).result.value.Int?
    decreases |ts|
  {
    if ts != [] {
      match EvalStep(stack, ts[0])
      case Stop(_) =>
      case Continue(next) => EarlyReturnIsNotFloat(next, ts[1..]);
    }
  }

  /** A `(` in the postfix sequence keeps `calculate` from returning a
      float: it returns the "not supported" message when it reaches the `(`,
      or it has returned something else that is not a float before. */
  lemma {:induction false} OpenParenIsNeverFloat(stack: seq<Value>, ts: seq<Token>)
    requires Sym('(') in ts
    ensures Fold(stack, ts).Stop?
    ensures Finish(Fold(stack, ts)).Err? || Finish(Fold(stack, ts)).value.Int?
    decreases |ts|
  {
    if ts[0] == Sym('(') {
      assert Fold(stack, ts) == Stop(Err(NotSupported));
    } else {
      assert Sym('(') in ts[1..];
      match EvalStep(stack, ts[0])
      case Stop(_) =>
        EarlyReturnIsNotFloat(stack, ts);
      case Continue(next) =>
        OpenParenIsNeverFloat(next, ts[1..]);
    }
  }

  /** The errors `calculate` can produce: the two messages of
      `execute_operation`, the failing final pop, and the powers that raise
      or are not modelled. */
  predicate IsEvaluationError(e: Error) {
    e == ZeroDivision || e == NotSupported || e == PopFromEmpty
    || e == ZeroToNegativePower || e == PowerNotModelled
  }

  lemma {:induction false} FoldErrors(stack: seq<Value>, ts: seq<Token>)
    ensures Fold(stack, ts).Stop? && Fold(stack, ts).result.Err? ==> IsEvaluationError(Fold(stack, ts).result.error)
    decreases |ts|
  {
    if ts != [] {
      match EvalStep(stack, ts[0])
      case Stop(_) =>
      case Continue(next) => FoldErrors(next, ts[1..]);
    }
  }

  /** `calculate` fails only with an evaluation error; in particular it
      never reports an invalid input. */
  lemma EvalErrors(ts: seq<Token>)
    ensures Eval(ts).Err? ==> IsEvaluationError(Eval(ts).error)
  {
    FoldErrors([], ts);
  }
}
