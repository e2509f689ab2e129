/** The shunting-yard converter of `calculator_class.py` (`to_postfix_notation`). */
module ClassPostfix {
  import opened Common
  import ClassLexer

  /** The converter's state: the operator stack (top last) and the output. */
  datatype Shunting = Shunting(stack: seq<char>, out: seq<Token>)

  function Symbols(cs: seq<char>): (ts: seq<Token>)
    ensures |ts| == |cs|
  {
    if cs == [] then [] else [Sym(cs[0])] + Symbols(cs[1..])
  }

  lemma {:induction false} SymbolsAppend(a: seq<char>, b: seq<char>)
    ensures Symbols(a + b) == Symbols(a) + Symbols(b)
  {
    if a == [] {
      assert a + b == b;
    } else {
      assert (a + b)[1..] == a[1..] + b;
      SymbolsAppend(a[1..], b);
    }
  }

  /** The loop body of `to_postfix_notation` for one token. */
  function Step(st: Shunting, t: Token): (r: Result<Shunting>)
    requires AllKeys(st.stack)
    ensures r.Ok? ==> AllKeys(r.value.stack)
    ensures r.Err? <==> t == Sym(')') && '(' !in st.stack
    ensures r.Err? ==> r.error == PopFromEmpty
  {
    match t
    case Num(_) => Ok(Shunting(st.stack, st.out + [t]))
    case Sym(c) =>
      if c == '(' then Ok(Shunting(st.stack + ['('], st.out))
      else if c == ')' then
        match PopToOpenParen(st.stack)
        case Err(e) => Err(e)
        case Ok(p) => Ok(Shunting(p.1, st.out + Symbols(p.0)))
      else if IsPriorityKey(c) then
        var p := PopWhileAtLeast(st.stack, Priority(c));
        Ok(Shunting(p.1 + [c], st.out + Symbols(p.0)))
      else Ok(st)
  }

  /** The output once the tokens `ts` are processed from state `st` and the
      rest of the stack is flushed in LIFO order. */
  function ShuntFrom(st: Shunting, ts: seq<Token>): Result<seq<Token>>
    requires AllKeys(st.stack)
    decreases |ts|
  {
    if ts == [] then Ok(st.out + Symbols(Reverse(st.stack)))
    else
      match Step(st, ts[0])
      case Err(e) => Err(e)
      case Ok(next) => ShuntFrom(next, ts[1..])
  }

  function Postfix(ts: seq<Token>): Result<seq<Token>> {
    ShuntFrom(Shunting([], []), ts)
  }

  // ---------------------------------------------------------------------
  // The imperative converter

  /** Popping one entry other than `(` above the nearest `(` does not change
      what the closing parenthesis produces. */
  lemma CloseParenPopsOne(stack: seq<char>, out: seq<Token>)
    requires AllKeys(stack) && |stack| > 0 && stack[|stack| - 1] != '('
    ensures Step(Shunting(stack, out), Sym(')'))
         == Step(Shunting(stack[..|stack| - 1], out + [Sym(stack[|stack| - 1])]), Sym(')'))
  {
    var top, below := stack[|stack| - 1], stack[..|stack| - 1];
    var r := PopToOpenParen(below);
    if r.Ok? {
      var p := r.value;
      assert PopToOpenParen(stack) == Ok(([top] + p.0, p.1));
      SymbolsAppend([top], p.0);
      assert Symbols([top]) == [Sym(top)];
      Associative3(out, [Sym(top)], Symbols(p.0));
    } else {
      assert PopToOpenParen(stack) == Err(PopFromEmpty);
    }
  }

  /** Popping one entry of priority at least `op`'s does not change what
      pushing `op` produces. */
  lemma OperatorPopsOne(stack: seq<char>, out: seq<Token>, op: char)
    requires AllKeys(stack) && IsPriorityKey(op) && op != '('
    requires |stack| > 0 && Priority(stack[|stack| - 1]) >= Priority(op)
    ensures Step(Shunting(stack, out), Sym(op))
         == Step(Shunting(stack[..|stack| - 1], out + [Sym(stack[|stack| - 1])]), Sym(op))
  {
    var top, below := stack[|stack| - 1], stack[..|stack| - 1];
    var p := PopWhileAtLeast(below, Priority(op));
    assert PopWhileAtLeast(stack, Priority(op)) == ([top] + p.0, p.1);
    SymbolsAppend([top], p.0);
    assert Symbols([top]) == [Sym(top)];
    Associative3(out, [Sym(top)], Symbols(p.0));
  }

  lemma FlushPopsOne(stack: seq<char>, out: seq<Token>)
    requires |stack| > 0
    ensures out + Symbols(Reverse(stack))
         == out + [Sym(stack[|stack| - 1])] + Symbols(Reverse(stack[..|stack| - 1]))
  {
    var top, below := stack[|stack| - 1], stack[..|stack| - 1];
    calc {
      out + Symbols(Reverse(stack));
      { ReverseLast(stack); }
      out + Symbols([top] + Reverse(below));
      { SymbolsAppend([top], Reverse(below)); assert Symbols([top]) == [Sym(top)]; }
      out + ([Sym(top)] + Symbols(Reverse(below)));
      { Associative3(out, [Sym(top)], Symbols(Reverse(below))); }
      out + [Sym(top)] + Symbols(Reverse(below));
    }
  }

  /** A `(` on top ends the popping of a closing parenthesis. */
  lemma CloseParenAtOpen(stack: seq<char>, out: seq<Token>)
    requires AllKeys(stack) && |stack| > 0 && stack[|stack| - 1] == '('
    ensures Step(Shunting(stack, out), Sym(')')) == Ok(Shunting(stack[..|stack| - 1], out))
  {
    assert PopToOpenParen(stack) == Ok(([], stack[..|stack| - 1]));
    assert out + Symbols([]) == out;
  }

  /** An entry of lower priority on top, or none, ends the popping of an
      operator, which is then pushed. */
  lemma OperatorAtLower(stack: seq<char>, out: seq<Token>, op: char)
    requires AllKeys(stack) && IsPriorityKey(op) && op != '('
    requires |stack| == 0 || Priority(stack[|stack| - 1]) < Priority(op)
    ensures Step(Shunting(stack, out), Sym(op)) == Ok(Shunting(stack + [op], out))
  {
    assert PopWhileAtLeast(stack, Priority(op)) == ([], stack);
    assert out + Symbols([]) == out;
  }

  lemma ShuntFromStep(st: Shunting, ts: seq<Token>)
    requires AllKeys(st.stack) && ts != []
    ensures ShuntFrom(st, ts) == match Step(st, ts[0])
                                 case Err(e) => Err(e)
                                 case Ok(next) => ShuntFrom(next, ts[1..])
  {
  }

  /** The run from the token at index `k` on, one step at a time. */
  lemma ShuntAt(st: Shunting, ts: seq<Token>, k: nat)
    requires AllKeys(st.stack) && k < |ts|
    ensures ShuntFrom(st, ts[k..]) == match Step(st, ts[k])
                                      case Err(e) => Err(e)
                                      case Ok(next) => ShuntFrom(next, ts[k + 1..])
  {
    ShuntFromStep(st, ts[k..]);
    assert ts[k..][1..] == ts[k + 1..];
  }

  /** `to_postfix_notation`: the tokens of the input in postfix order. */
  method ToPostfixNotation(infix: string) returns (r: Result<seq<Token>>)
    ensures r == Postfix(ClassLexer.Lex(infix))
  {
    var tokens := ClassLexer.ParseString(infix);
    var postfix: seq<Token> := [];
    var stack: seq<char> := [];
    for n := 0 to |tokens|
      invariant AllKeys(stack)
      invariant ShuntFrom(Shunting(stack, postfix), tokens[n..]) == Postfix(tokens)
    {
      var element := tokens[n];
      ghost var before := Shunting(stack, postfix);
      ShuntAt(before, tokens, n);
      if element.Num? {
        postfix := postfix + [element];
      } else if element.symbol == '(' {
        stack := stack + ['('];
      } else if element.symbol == ')' {
        while |stack| > 0 && stack[|stack| - 1] != '('
          invariant AllKeys(stack)
          invariant Step(Shunting(stack, postfix), element) == Step(before, element)
        {
          CloseParenPopsOne(stack, postfix);
          postfix := postfix + [Sym(stack[|stack| - 1])];
          stack := stack[..|stack| - 1];
        }
        if |stack| == 0 {
          return Err(PopFromEmpty);
        }
        CloseParenAtOpen(stack, postfix);
        stack := stack[..|stack| - 1];
      } else if IsPriorityKey(element.symbol) {
        var operator := element.symbol;
        while |stack| > 0 && Priority(stack[|stack| - 1]) >= Priority(operator)
          invariant AllKeys(stack)
          invariant Step(Shunting(stack, postfix), element) == Step(before, element)
        {
          OperatorPopsOne(stack, postfix, operator);
          postfix := postfix + [Sym(stack[|stack| - 1])];
          stack := stack[..|stack| - 1];
        }
        OperatorAtLower(stack, postfix, operator);
        stack := stack + [operator];
      }
    }
    while |stack| > 0
      invariant Postfix(tokens) == Ok(postfix + Symbols(Reverse(stack)))
    {
      FlushPopsOne(stack, postfix);
      postfix := postfix + [Sym(stack[|stack| - 1])];
      stack := stack[..|stack| - 1];
    }
    assert postfix + Symbols(Reverse(stack)) == postfix;
    return Ok(postfix);
  }

  // ---------------------------------------------------------------------
  // The operator-stack invariant

  lemma OrderedPrefix(stack: seq<char>, n: nat)
    requires AllKeys(stack) && Ordered(stack) && n <= |stack|
    ensures AllKeys(stack[..n]) && Ordered(stack[..n])
  {
  }

  lemma OrderedPush(stack: seq<char>, c: char)
    requires AllKeys(stack) && Ordered(stack) && IsPriorityKey(c)
    requires c == '(' || stack == [] || Priority(stack[|stack| - 1]) < Priority(c)
    ensures AllKeys(stack + [c]) && Ordered(stack + [c])
  {
    var s' := stack + [c];
    assert forall k :: 0 <= k < |stack| ==> s'[k] == stack[k];
  }

  lemma CloseParenKeepsOrdered(stack: seq<char>)
    requires AllKeys(stack) && Ordered(stack) && '(' in stack
    ensures Ordered(PopToOpenParen(stack).value.1)
  {
    var p := PopToOpenParen(stack).value;
    Associative3(p.1, ['('], Reverse(p.0));
    assert p.1 == stack[..|p.1|];
    OrderedPrefix(stack, |p.1|);
  }

  lemma OperatorKeepsOrdered(stack: seq<char>, c: char)
    requires AllKeys(stack) && Ordered(stack) && IsPriorityKey(c) && c != '('
    ensures Ordered(PopWhileAtLeast(stack, Priority(c)).1 + [c])
  {
    var p := PopWhileAtLeast(stack, Priority(c));
    assert p.1 == stack[..|p.1|];
    OrderedPrefix(stack, |p.1|);
    OrderedPush(p.1, c);
  }

  /** Every step keeps the operator stack ordered: an entry other than `(`
      outranks the entry below it, so operators of equal priority (`^` and
      `~` included) never stay stacked and group from left to right. */
  lemma StepKeepsOrdered(st: Shunting, t: Token)
    requires AllKeys(st.stack) && Ordered(st.stack) && Step(st, t).Ok?
    ensures Ordered(Step(st, t).value.stack)
  {
    if t == Sym('(') {
      OrderedPush(st.stack, '(');
    } else if t == Sym(')') {
      CloseParenKeepsOrdered(st.stack);
    } else if t.Sym? && IsPriorityKey(t.symbol) {
      OperatorKeepsOrdered(st.stack, t.symbol);
    }
  }

  /** The stack stays ordered through any run of tokens. */
  lemma {:induction false} ShuntKeepsOrdered(st: Shunting, ts: seq<Token>, k: nat)
    requires AllKeys(st.stack) && Ordered(st.stack) && k <= |ts|
    ensures Run(st, ts[..k]).Ok? ==> Ordered(Run(st, ts[..k]).value.stack)
    decreases k
  {
    if k > 0 {
      ShuntKeepsOrdered(st, ts, k - 1);
      var r := Run(st, ts[..k - 1]);
      RunSnoc(st, ts[..k - 1], ts[k - 1]);
      assert ts[..k] == ts[..k - 1] + [ts[k - 1]];
      if r.Ok? && Step(r.value, ts[k - 1]).Ok? {
        StepKeepsOrdered(r.value, ts[k - 1]);
      }
    }
  }

  /** The state after processing `ts` (before the final flush). */
  function Run(st: Shunting, ts: seq<Token>): (r: Result<Shunting>)
    requires AllKeys(st.stack)
    ensures r.Ok? ==> AllKeys(r.value.stack)
    decreases |ts|
  {
    if ts == [] then Ok(st)
    else
      match Step(st, ts[0])
      case Err(e) => Err(e)
      case Ok(next) => Run(next, ts[1..])
  }

  lemma {:induction false} RunSnoc(st: Shunting, ts: seq<Token>, t: Token)
    requires AllKeys(st.stack)
    ensures Run(st, ts + [t]) == match Run(st, ts)
                                 case Err(e) => Err(e)
                                 case Ok(mid) => Step(mid, t)
    decreases |ts|
  {
    if ts == [] {
      assert [] + [t] == [t];
    } else {
      assert (ts + [t])[1..] == ts[1..] + [t];
      match Step(st, ts[0])
      case Err(_) =>
      case Ok(next) => RunSnoc(next, ts[1..], t);
    }
  }

  lemma {:induction false} RunAppend(st: Shunting, xs: seq<Token>, ys: seq<Token>)
    requires AllKeys(st.stack)
    ensures Run(st, xs + ys) == match Run(st, xs)
                                case Err(e) => Err(e)
                                case Ok(mid) => Run(mid, ys)
    decreases |xs|
  {
    if xs == [] {
      assert xs + ys == ys;
    } else {
      assert (xs + ys)[1..] == xs[1..] + ys;
      match Step(st, xs[0])
      case Err(_) =>
      case Ok(next) => RunAppend(next, xs[1..], ys);
    }
  }

  lemma RunThen(st: Shunting, xs: seq<Token>, mid: Shunting, ys: seq<Token>, fin: Shunting)
    requires AllKeys(st.stack) && Run(st, xs) == Ok(mid) && Run(mid, ys) == Ok(fin)
    ensures Run(st, xs + ys) == Ok(fin)
  {
    RunAppend(st, xs, ys);
  }

  lemma RunThenStep(st: Shunting, xs: seq<Token>, mid: Shunting, t: Token, fin: Shunting)
    requires AllKeys(st.stack) && Run(st, xs) == Ok(mid) && Step(mid, t) == Ok(fin)
    ensures Run(st, xs + [t]) == Ok(fin)
  {
    RunSnoc(st, xs, t);
  }

  /** The conversion is the run over all tokens followed by the flush. */
  lemma {:induction false} ShuntFromRun(st: Shunting, ts: seq<Token>)
    requires AllKeys(st.stack)
    ensures ShuntFrom(st, ts) == match Run(st, ts)
                                 case Err(e) => Err(e)
                                 case Ok(fin) => Ok(fin.out + Symbols(Reverse(fin.stack)))
    decreases |ts|
  {
    if ts != [] {
      match Step(st, ts[0])
      case Err(_) =>
      case Ok(next) => ShuntFromRun(next, ts[1..]);
    }
  }

  // ---------------------------------------------------------------------
  // What the output holds

  /** The tokens the converter keeps: numbers and priority keys (the
      closing parenthesis and unknown symbols are consumed). */
  predicate IsKept(t: Token) {
    t.Num? || IsPriorityKey(t.symbol)
  }

  /** The numbers of a token sequence, in order. */
  function Numbers(ts: seq<Token>): seq<real> {
    if ts == [] then []
    else (if ts[0].Num? then [ts[0].value] else []) + Numbers(ts[1..])
  }

  lemma {:induction false} NumbersAppend(a: seq<Token>, b: seq<Token>)
    ensures Numbers(a + b) == Numbers(a) + Numbers(b)
  {
    if a == [] {
      assert a + b == b;
    } else {
      var head := if a[0].Num? then [a[0].value] else [];
      assert (a + b)[0] == a[0] && (a + b)[1..] == a[1..] + b;
      assert Numbers(a + b) == head + Numbers(a[1..] + b);
      NumbersAppend(a[1..], b);
      assert Numbers(a) == head + Numbers(a[1..]);
      Associative3(head, Numbers(a[1..]), Numbers(b));
    }
  }

  lemma {:induction false} NumbersOfSymbols(cs: seq<char>)
    ensures Numbers(Symbols(cs)) == []
  {
    if cs != [] {
      NumbersOfSymbols(cs[1..]);
      NumbersAppend([Sym(cs[0])], Symbols(cs[1..]));
    }
  }

  lemma {:induction false} SymbolsReverseMultiset(cs: seq<char>)
    ensures multiset(Symbols(Reverse(cs))) == multiset(Symbols(cs))
  {
    if cs != [] {
      SymbolsReverseMultiset(cs[1..]);
      SymbolsAppend(Reverse(cs[1..]), [cs[0]]);
      SymbolsAppend([cs[0]], cs[1..]);
    }
  }

  /** How often `x` is held by a state, in its output or on its stack. */
  function Held(st: Shunting, x: Token): nat {
    multiset(st.out)[x] + multiset(Symbols(st.stack))[x]
  }

  /** The `(` that a `)` discards. */
  function Dropped(t: Token, x: Token): nat {
    if t == Sym(')') && x == Sym('(') then 1 else 0
  }

  /** The token a step keeps. */
  function Added(t: Token, x: Token): nat {
    if IsKept(t) && x == t then 1 else 0
  }

  /** Closing a parenthesis moves entries from the stack to the output and
      discards one `(`. */
  lemma PopToOpenParenMultiset(stack: seq<char>)
    requires AllKeys(stack) && '(' in stack
    ensures var r := PopToOpenParen(stack).value;
            multiset(Symbols(r.1)) + multiset(Symbols(r.0)) + multiset{Sym('(')} == multiset(Symbols(stack))
  {
    var r := PopToOpenParen(stack).value;
    Associative3(r.1, ['('], Reverse(r.0));
    SymbolsAppend(r.1, ['('] + Reverse(r.0));
    SymbolsAppend(['('], Reverse(r.0));
    SymbolsReverseMultiset(r.0);
    assert Symbols(['(']) == [Sym('(')];
  }

  lemma CloseParenHeld(st: Shunting, x: Token)
    requires AllKeys(st.stack) && '(' in st.stack
    ensures Held(Step(st, Sym(')')).value, x) + Dropped(Sym(')'), x) == Held(st, x)
  {
    PopToOpenParenMultiset(st.stack);
  }

  /** Popping moves entries from the stack to the output, losing none. */
  lemma PopWhileAtLeastMultiset(stack: seq<char>, p: nat)
    requires AllKeys(stack)
    ensures var r := PopWhileAtLeast(stack, p);
            multiset(Symbols(r.1)) + multiset(Symbols(r.0)) == multiset(Symbols(stack))
  {
    var r := PopWhileAtLeast(stack, p);
    SymbolsAppend(r.1, Reverse(r.0));
    SymbolsReverseMultiset(r.0);
  }

  lemma OperatorHeld(st: Shunting, c: char, x: Token)
    requires AllKeys(st.stack) && IsPriorityKey(c) && c != '('
    ensures Held(Step(st, Sym(c)).value, x) == Held(st, x) + Added(Sym(c), x)
  {
    var p := PopWhileAtLeast(st.stack, Priority(c));
    var next := Shunting(p.1 + [c], st.out + Symbols(p.0));
    assert Step(st, Sym(c)) == Ok(next);
    assert multiset(Symbols(next.stack)) == multiset(Symbols(p.1)) + multiset{Sym(c)} by {
      SymbolsAppend(p.1, [c]);
      assert Symbols([c]) == [Sym(c)];
    }
    assert multiset(Symbols(p.1)) + multiset(Symbols(p.0)) == multiset(Symbols(st.stack)) by {
      PopWhileAtLeastMultiset(st.stack, Priority(c));
    }
    assert multiset(next.out) == multiset(st.out) + multiset(Symbols(p.0));
    var o, a, b, n := multiset(st.out)[x], multiset(Symbols(p.0))[x], multiset(Symbols(p.1))[x], multiset{Sym(c)}[x];
    assert Held(next, x) == o + a + (b + n);
    assert Held(st, x) == o + (b + a);
    assert Added(Sym(c), x) == n;
  }

  lemma OpenParenHeld(st: Shunting, x: Token)
    requires AllKeys(st.stack)
    ensures Held(Step(st, Sym('(')).value, x) == Held(st, x) + Added(Sym('('), x)
  {
    assert Step(st, Sym('(')).value == Shunting(st.stack + ['('], st.out);
    SymbolsAppend(st.stack, ['(']);
    assert Symbols(['(']) == [Sym('(')];
  }

  lemma OtherHeld(st: Shunting, t: Token, x: Token)
    requires AllKeys(st.stack) && !(t.Sym? && (t.symbol == ')' || IsPriorityKey(t.symbol)))
    ensures Held(Step(st, t).value, x) == Held(st, x) + Added(t, x)
  {
  }

  /** One step adds the token it keeps and, for `)`, drops one `(`. */
  lemma StepHeld(st: Shunting, t: Token, x: Token)
    requires AllKeys(st.stack) && Step(st, t).Ok?
    ensures Held(Step(st, t).value, x) + Dropped(t, x) == Held(st, x) + Added(t, x)
  {
    if t == Sym('(') {
      OpenParenHeld(st, x);
    } else if t == Sym(')') {
      CloseParenHeld(st, x);
    } else if t.Sym? && IsPriorityKey(t.symbol) {
      OperatorHeld(st, t.symbol, x);
    } else {
      OtherHeld(st, t, x);
    }
  }

  /** One step appends the number it reads, if any, and no other number. */
  lemma StepNumbers(st: Shunting, t: Token)
    requires AllKeys(st.stack) && Step(st, t).Ok?
    ensures Numbers(Step(st, t).value.out) == Numbers(st.out) + Numbers([t])
  {
    if t.Num? {
      assert Step(st, t).value.out == st.out + [t];
      NumbersAppend(st.out, [t]);
    } else {
      assert Numbers([t]) == [];
      var popped: seq<char> := [];
      if t == Sym(')') {
        popped := PopToOpenParen(st.stack).value.0;
      } else if t.symbol != '(' && IsPriorityKey(t.symbol) {
        popped := PopWhileAtLeast(st.stack, Priority(t.symbol)).0;
      } else {
        assert Symbols(popped) == [];
        assert st.out + [] == st.out;
      }
      assert Step(st, t).value.out == st.out + Symbols(popped);
      NumbersAppend(st.out, Symbols(popped));
      NumbersOfSymbols(popped);
    }
  }

  function Closings(ts: seq<Token>): nat {
    multiset(ts)[Sym(')')]
  }

  /** The count of `x` in the output of the rest of a run: what the state
      holds, plus each kept occurrence in the tokens, less one `(` per `)`. */
  lemma {:induction false} ShuntHeld(st: Shunting, ts: seq<Token>, x: Token)
    requires AllKeys(st.stack) && ShuntFrom(st, ts).Ok?
    ensures multiset(ShuntFrom(st, ts).value)[x] + (if x == Sym('(') then Closings(ts) else 0)
         == Held(st, x) + (if IsKept(x) then multiset(ts)[x] else 0)
    decreases |ts|
  {
    if ts == [] {
      SymbolsReverseMultiset(st.stack);
    } else {
      ShuntFromStep(st, ts);
      ShuntHeld(Step(st, ts[0]).value, ts[1..], x);
      ShuntHeldStep(st, ts, x);
    }
  }

  lemma ShuntHeldStep(st: Shunting, ts: seq<Token>, x: Token)
    requires AllKeys(st.stack) && ts != [] && Step(st, ts[0]).Ok?
    requires ShuntFrom(st, ts) == ShuntFrom(Step(st, ts[0]).value, ts[1..]) && ShuntFrom(st, ts).Ok?
    requires var next := Step(st, ts[0]).value;
             multiset(ShuntFrom(next, ts[1..]).value)[x] + (if x == Sym('(') then Closings(ts[1..]) else 0)
             == Held(next, x) + (if IsKept(x) then multiset(ts[1..])[x] else 0)
    ensures multiset(ShuntFrom(st, ts).value)[x] + (if x == Sym('(') then Closings(ts) else 0)
         == Held(st, x) + (if IsKept(x) then multiset(ts)[x] else 0)
  {
    StepHeld(st, ts[0], x);
    CountCons(ts, x);
    CountCons(ts, Sym(')'));
  }

  lemma CountCons<T>(s: seq<T>, x: T)
    requires s != []
    ensures multiset(s)[x] == (if s[0] == x then 1 else 0) + multiset(s[1..])[x]
  {
    assert s == [s[0]] + s[1..];
  }

  lemma {:induction false} ShuntNumbers(st: Shunting, ts: seq<Token>)
    requires AllKeys(st.stack) && ShuntFrom(st, ts).Ok?
    ensures Numbers(ShuntFrom(st, ts).value) == Numbers(st.out) + Numbers(ts)
    decreases |ts|
  {
    if ts == [] {
      NumbersAppend(st.out, Symbols(Reverse(st.stack)));
      NumbersOfSymbols(Reverse(st.stack));
      assert Numbers(ts) == [];
    } else {
      var t := ts[0];
      var next := Step(st, t).value;
      assert ShuntFrom(st, ts) == ShuntFrom(next, ts[1..]);
      StepNumbers(st, t);
      ShuntNumbers(next, ts[1..]);
      assert ts == [t] + ts[1..];
      NumbersAppend([t], ts[1..]);
      Associative3(Numbers(st.out), Numbers([t]), Numbers(ts[1..]));
    }
  }

  /** The conversion keeps every number, in order, and every operator
      exactly once; it consumes every `)` together with the `(` it matches,
      leaves every unmatched `(` in the output, and drops any other symbol. */
  lemma PostfixContents(ts: seq<Token>)
    requires Postfix(ts).Ok?
    ensures Numbers(Postfix(ts).value) == Numbers(ts)
    ensures forall c :: IsPriorityKey(c) && c != '(' ==> multiset(Postfix(ts).value)[Sym(c)] == multiset(ts)[Sym(c)]
    ensures multiset(Postfix(ts).value)[Sym('(')] + multiset(ts)[Sym(')')] == multiset(ts)[Sym('(')]
    ensures forall t :: t in Postfix(ts).value ==> IsKept(t)
  {
    var out := Postfix(ts).value;
    ShuntNumbers(Shunting([], []), ts);
    assert Numbers([]) + Numbers(ts) == Numbers(ts);
    forall c | IsPriorityKey(c) && c != '('
      ensures multiset(out)[Sym(c)] == multiset(ts)[Sym(c)]
    {
      PostfixHeld(ts, Sym(c));
    }
    PostfixHeld(ts, Sym('('));
    forall t | t in out
      ensures IsKept(t)
    {
      PostfixHeld(ts, t);
    }
  }

  /** The count of one token in the output. */
  lemma PostfixHeld(ts: seq<Token>, x: Token)
    requires Postfix(ts).Ok?
    ensures multiset(Postfix(ts).value)[x] + (if x == Sym('(') then Closings(ts) else 0)
         == if IsKept(x) then multiset(ts)[x] else 0
  {
    ShuntHeld(Shunting([], []), ts, x);
    assert Held(Shunting([], []), x) == 0;
  }

  // ---------------------------------------------------------------------
  // When the conversion fails

  /** Opening minus closing parentheses. */
  function Depth(ts: seq<Token>): int {
    multiset(ts)[Sym('(')] as int - multiset(ts)[Sym(')')] as int
  }

  function OpenCount(stack: seq<char>): nat {
    multiset(stack)['(']
  }

  lemma StepDepth(st: Shunting, t: Token)
    requires AllKeys(st.stack)
    ensures Step(st, t).Err? <==> OpenCount(st.stack) + Depth([t]) < 0
    ensures Step(st, t).Ok? ==> OpenCount(Step(st, t).value.stack) == OpenCount(st.stack) + Depth([t])
  {
    if t == Sym(')') {
      if Step(st, t).Ok? {
        var p := PopToOpenParen(st.stack).value;
        assert st.stack == p.1 + ['('] + Reverse(p.0);
        assert multiset(Reverse(p.0))['('] == 0 by {
          assert '(' !in Reverse(p.0) by {
            ReverseHas(p.0, '(');
          }
        }
      } else {
        assert '(' !in st.stack;
      }
    } else if t.Sym? && t.symbol != '(' && IsPriorityKey(t.symbol) {
      var p := PopWhileAtLeast(st.stack, Priority(t.symbol));
      assert '(' !in p.0;
      assert multiset(Reverse(p.0))['('] == 0 by {
        ReverseHas(p.0, '(');
      }
      assert st.stack == p.1 + Reverse(p.0);
    }
  }

  lemma {:induction false} ReverseHas<T>(s: seq<T>, x: T)
    ensures x in Reverse(s) <==> x in s
  {
    if s != [] {
      ReverseHas(s[1..], x);
      assert s == [s[0]] + s[1..];
    }
  }

  /** Some prefix of `ts` closes more parentheses than `open` plus the
      ones it opens itself. */
  predicate Overclosed(open: nat, ts: seq<Token>) {
    exists n :: 0 < n <= |ts| && open + Depth(ts[..n]) < 0
  }

  lemma OverclosedCons(open: nat, ts: seq<Token>)
    requires ts != [] && open + Depth(ts[..1]) >= 0
    ensures Overclosed(open, ts) <==> Overclosed(open + Depth(ts[..1]), ts[1..])
  {
    var open' := open + Depth(ts[..1]);
    forall n | 1 <= n <= |ts| - 1
      ensures open' + Depth(ts[1..][..n]) == open + Depth(ts[..n + 1])
    {
      assert ts[..n + 1] == ts[..1] + ts[1..][..n];
    }
    if Overclosed(open, ts) {
      var n :| 0 < n <= |ts| && open + Depth(ts[..n]) < 0;
      assert open' + Depth(ts[1..][..n - 1]) < 0;
    }
    if Overclosed(open', ts[1..]) {
      var n :| 0 < n <= |ts| - 1 && open' + Depth(ts[1..][..n]) < 0;
      assert open + Depth(ts[..n + 1]) < 0;
    }
  }

  lemma {:induction false} ShuntFails(st: Shunting, ts: seq<Token>)
    requires AllKeys(st.stack)
    ensures ShuntFrom(st, ts).Err? <==> Overclosed(OpenCount(st.stack), ts)
    ensures ShuntFrom(st, ts).Err? ==> ShuntFrom(st, ts).error == PopFromEmpty
    decreases |ts|
  {
    var open := OpenCount(st.stack);
    if ts != [] {
      var t := ts[0];
      StepDepth(st, t);
      assert ts[..1] == [t];
      if Step(st, t).Err? {
        assert open + Depth(ts[..1]) < 0;
      } else {
        var next := Step(st, t).value;
        assert ShuntFrom(st, ts) == ShuntFrom(next, ts[1..]);
        ShuntFails(next, ts[1..]);
        OverclosedCons(open, ts);
      }
    }
  }

  /** `to_postfix_notation` fails (on the final `stack.pop()` of a `)`)
      exactly when some prefix of the tokens closes more parentheses than
      it opens. */
  lemma PostfixFails(ts: seq<Token>)
    ensures Postfix(ts).Err? <==> exists n :: 0 < n <= |ts| && Depth(ts[..n]) < 0
    ensures Postfix(ts).Err? ==> Postfix(ts).error == PopFromEmpty
  {
    ShuntFails(Shunting([], []), ts);
    assert OpenCount([]) == 0;
  }
}
