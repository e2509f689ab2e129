/** The string-based calculator of `calculator.py` (`SimpleCalculator`):
    the converter writes the postfix notation as text, digit by digit, with
    a space after each number and each operator, and the evaluator splits
    that text into words again. No validation precedes the conversion. */
module StringCalculator {
  import opened Common
  import ClassEval

  // ---------------------------------------------------------------------
  // Text

  /** Popped operators as the converter writes them: each followed by a space. */
  function Spaced(cs: seq<char>): (r: string)
    ensures |r| == 2 * |cs|
    ensures cs != [] ==> r[0] == cs[0]
  {
    if cs == [] then [] else [cs[0], ' '] + Spaced(cs[1..])
  }

  lemma {:induction false} SpacedAppend(a: seq<char>, b: seq<char>)
    ensures Spaced(a + b) == Spaced(a) + Spaced(b)
  {
    if a == [] {
      assert a + b == b;
    } else {
      assert (a + b)[1..] == a[1..] + b;
      SpacedAppend(a[1..], b);
    }
  }

  /** Every whitespace character is a plain space that directly follows a
      character that is not whitespace: words are separated by single
      spaces and nothing starts with a space. */
  predicate SingleSpaced(t: string) {
    forall k :: 0 <= k < |t| && IsSpace(t[k]) ==> t[k] == ' ' && k > 0 && !IsSpace(t[k - 1])
  }

  lemma SingleSpacedAppend(a: string, b: string)
    requires SingleSpaced(a) && SingleSpaced(b)
    ensures SingleSpaced(a + b)
  {
    forall k | 0 <= k < |a + b| && IsSpace((a + b)[k])
      ensures (a + b)[k] == ' ' && k > 0 && !IsSpace((a + b)[k - 1])
    {
      if k >= |a| {
        assert (a + b)[k] == b[k - |a|];
        assert k - |a| > 0;
        assert (a + b)[k - 1] == b[k - |a| - 1];
      }
    }
  }

  /** Operators written out with their spaces are single-spaced. */
  lemma {:induction false} SpacedIsSingleSpaced(cs: seq<char>)
    requires forall k :: 0 <= k < |cs| ==> !IsSpace(cs[k])
    ensures SingleSpaced(Spaced(cs))
  {
    if cs != [] {
      SpacedIsSingleSpaced(cs[1..]);
      SingleSpacedAppend([cs[0], ' '], Spaced(cs[1..]));
    }
  }

  /** Dropping trailing whitespace (`rstrip`). */
  function TrimEnd(s: string): (r: string)
    ensures |r| <= |s| && r == s[..|r|]
    ensures r == [] || !IsSpace(r[|r| - 1])
    ensures forall k :: |r| <= k < |s| ==> IsSpace(s[k])
    decreases |s|
  {
    if s != [] && IsSpace(s[|s| - 1]) then TrimEnd(s[..|s| - 1]) else s
  }

  /** Dropping leading whitespace (`lstrip`). */
  function TrimStart(s: string): (r: string)
    ensures |r| <= |s| && r == s[|s| - |r|..]
    ensures r == [] || !IsSpace(r[0])
    ensures forall k :: 0 <= k < |s| - |r| ==> IsSpace(s[k])
    decreases |s|
  {
    if s != [] && IsSpace(s[0]) then TrimStart(s[1..]) else s
  }

  /** `str.strip()`: whitespace dropped at both ends. */
  function Strip(s: string): string {
    TrimEnd(TrimStart(s))
  }

  /** A word of `str.split()`: non-empty, with no whitespace. */
  predicate IsWord(w: string) {
    w != [] && forall k :: 0 <= k < |w| ==> !IsSpace(w[k])
  }

  /** The start of the last word of a text that does not end in whitespace. */
  function LastWordStart(s: string): (k: nat)
    requires s != [] && !IsSpace(s[|s| - 1])
    ensures k < |s|
    ensures forall m :: k <= m < |s| ==> !IsSpace(s[m])
    ensures k == 0 || IsSpace(s[k - 1])
    decreases |s|
  {
    if |s| == 1 || IsSpace(s[|s| - 2]) then |s| - 1 else LastWordStart(s[..|s| - 1])
  }

  /** `str.split()` without arguments: the maximal runs of characters that
      are not whitespace, in order. */
  function Words(s: string): (ws: seq<string>)
    ensures forall k :: 0 <= k < |ws| ==> IsWord(ws[k])
    decreases |s|
  {
    if s == [] then []
    else if IsSpace(s[|s| - 1]) then Words(s[..|s| - 1])
    else
      var k := LastWordStart(s);
      Words(s[..k]) + [s[k..]]
  }

  /** A text that is empty or ends in whitespace. */
  predicate EndsInSpace(t: string) {
    t == [] || IsSpace(t[|t| - 1])
  }

  /** Trailing whitespace adds no word. */
  lemma WordsSpace(t: string, c: char)
    requires IsSpace(c)
    ensures Words(t + [c]) == Words(t)
  {
    assert (t + [c])[..|t|] == t;
  }

  /** A word written after whitespace becomes the last word. */
  lemma WordsWord(t: string, w: string)
    requires EndsInSpace(t) && IsWord(w)
    ensures Words(t + w) == Words(t) + [w]
  {
    var s := t + w;
    var k := LastWordStart(s);
    assert t != [] ==> s[|t| - 1] == t[|t| - 1];
    assert forall m :: |t| <= m < |s| ==> s[m] == w[m - |t|];
    assert k == |t|;
    assert s[..|t|] == t;
    assert s[|t|..] == w;
  }

  /** A word followed by a space becomes the last word. */
  lemma WordsWordSpace(t: string, w: string)
    requires EndsInSpace(t) && IsWord(w)
    ensures Words(t + w + " ") == Words(t) + [w]
    ensures EndsInSpace(t + w + " ")
  {
    WordsWord(t, w);
    WordsSpace(t + w, ' ');
  }

  /** The one-character words of a sequence of characters. */
  function Singles(cs: seq<char>): (ws: seq<string>)
    ensures |ws| == |cs|
    ensures forall k :: 0 <= k < |cs| ==> ws[k] == [cs[k]]
  {
    if cs == [] then [] else [[cs[0]]] + Singles(cs[1..])
  }

  /** Written-out operators are split back into one word each. */
  lemma {:induction false} WordsSpaced(t: string, cs: seq<char>)
    requires EndsInSpace(t)
    requires forall k :: 0 <= k < |cs| ==> !IsSpace(cs[k])
    ensures Words(t + Spaced(cs)) == Words(t) + Singles(cs)
    ensures EndsInSpace(t + Spaced(cs))
    decreases |cs|
  {
    if cs == [] {
      assert t + Spaced(cs) == t;
    } else {
      var u := t + [cs[0]] + " ";
      WordsWordSpace(t, [cs[0]]);
      WordsSpaced(u, cs[1..]);
      SpacedCons(t, cs);
      assert Singles(cs) == [[cs[0]]] + Singles(cs[1..]);
      Associative3(Words(t), [[cs[0]]], Singles(cs[1..]));
    }
  }

  lemma SpacedCons(t: string, cs: seq<char>)
    requires cs != []
    ensures t + Spaced(cs) == t + [cs[0]] + " " + Spaced(cs[1..])
  {
    var head, rest := [cs[0], ' '], Spaced(cs[1..]);
    assert Spaced(cs) == head + rest;
    assert t + [cs[0]] + " " == t + head;
    Associative3(t, head, rest);
  }

  /** Trailing whitespace does not change the words. */
  lemma {:induction false} WordsTrimEnd(t: string)
    ensures Words(TrimEnd(t)) == Words(t)
    decreases |t|
  {
    if t != [] && IsSpace(t[|t| - 1]) {
      WordsTrimEnd(t[..|t| - 1]);
    }
  }

  // ---------------------------------------------------------------------
  // The converter

  /** The converter's state: the operator stack (top last) and the text
      written so far. */
  datatype Conversion = Conversion(stack: seq<char>, text: string)

  /** What a digit writes: the digit alone when the next character is a
      digit or a `.`, otherwise the digit and a space. */
  function DigitText(s: string, i: nat): string
    requires i < |s|
  {
    if i != |s| - 1 && (IsDigit(s[i + 1]) || s[i + 1] == '.') then [s[i]] else [s[i], ' ']
  }

  /** The `)` branch: the entries above the nearest `(` are written out,
      then that `(` is popped; the pop fails when no `(` is left. */
  function CloseParen(st: Conversion): (r: Result<Conversion>)
    requires AllKeys(st.stack)
    ensures r.Ok? ==> AllKeys(r.value.stack)
    ensures r.Err? <==> '(' !in st.stack
    ensures r.Err? ==> r.error == PopFromEmpty
  {
    match PopToOpenParen(st.stack)
    case Err(e) => Err(e)
    case Ok(p) => Ok(Conversion(p.1, st.text + Spaced(p.0)))
  }

  /** The operator branch: the entries of priority at least `op`'s are
      written out, then `op` is pushed. */
  function PushOperator(st: Conversion, op: char): (r: Conversion)
    requires AllKeys(st.stack) && IsPriorityKey(op)
    ensures AllKeys(r.stack)
  {
    var p := PopWhileAtLeast(st.stack, Priority(op));
    Conversion(p.1 + [op], st.text + Spaced(p.0))
  }

  /** The loop body of `to_postfix_notation` for the character at index `i`.
      A `-` is classified on the raw text, so a space before it makes it
      binary; characters that are neither digits, dots, parentheses nor
      priority keys are ignored. */
  function ConvertStep(s: string, i: nat, st: Conversion): (r: Result<Conversion>)
    requires i < |s| && AllKeys(st.stack)
    ensures r.Ok? ==> AllKeys(r.value.stack)
    ensures r.Err? <==> s[i] == ')' && '(' !in st.stack
  {
    var c := s[i];
    if c == '.' then Ok(Conversion(st.stack, st.text + ['.']))
    else if IsDigit(c) then Ok(Conversion(st.stack, st.text + DigitText(s, i)))
    else if c == '(' then Ok(Conversion(st.stack + ['('], st.text))
    else if c == ')' then CloseParen(st)
    else if IsPriorityKey(c) then Ok(PushOperator(st, Classify(s, i)))
    else Ok(st)
  }

  /** The state once the characters from index `i` on are processed; the
      only failure is the pop of a `)` that finds no `(`. */
  function ConvertFrom(s: string, i: nat, st: Conversion): (r: Result<Conversion>)
    requires i <= |s| && AllKeys(st.stack)
    ensures r.Err? ==> r.error == PopFromEmpty
    decreases |s| - i
  {
    if i == |s| then Ok(st)
    else
      match ConvertStep(s, i, st)
      case Err(e) => Err(e)
      case Ok(next) => ConvertFrom(s, i + 1, next)
  }

  /** The text once the rest of the stack is written out in LIFO order. */
  function Flushed(st: Conversion): string {
    st.text + Spaced(Reverse(st.stack))
  }

  /** The result of `to_postfix_notation`: the flushed text, stripped. */
  function Convert(s: string): Result<string> {
    match ConvertFrom(s, 0, Conversion([], []))
    case Err(e) => Err(e)
    case Ok(st) => Ok(Strip(Flushed(st)))
  }

  lemma ConvertThen(s: string, i: nat, st: Conversion, next: Conversion)
    requires i < |s| && AllKeys(st.stack) && ConvertStep(s, i, st) == Ok(next)
    ensures ConvertFrom(s, i, st) == ConvertFrom(s, i + 1, next)
  {
  }

  lemma ConvertFails(s: string, i: nat, st: Conversion)
    requires i < |s| && AllKeys(st.stack) && ConvertStep(s, i, st).Err?
    ensures ConvertFrom(s, i, st) == Err(PopFromEmpty)
  {
  }

  /** Writing out one entry other than `(` above the nearest `(` does not
      change what the closing parenthesis produces. */
  lemma CloseParenPopsOne(stack: seq<char>, text: string)
    requires AllKeys(stack) && |stack| > 0 && stack[|stack| - 1] != '('
    ensures CloseParen(Conversion(stack, text))
         == CloseParen(Conversion(stack[..|stack| - 1], text + [stack[|stack| - 1], ' ']))
  {
    var top, below := stack[|stack| - 1], stack[..|stack| - 1];
    var r := PopToOpenParen(below);
    if r.Ok? {
      var p := r.value;
      assert PopToOpenParen(stack) == Ok(([top] + p.0, p.1));
      SpacedAppend([top], p.0);
      Associative3(text, [top, ' '], Spaced(p.0));
    } else {
      assert PopToOpenParen(stack) == Err(PopFromEmpty);
    }
  }

  lemma CloseParenAtOpen(stack: seq<char>, text: string)
    requires AllKeys(stack) && |stack| > 0 && stack[|stack| - 1] == '('
    ensures CloseParen(Conversion(stack, text)) == Ok(Conversion(stack[..|stack| - 1], text))
  {
    assert PopToOpenParen(stack) == Ok(([], stack[..|stack| - 1]));
    assert text + Spaced([]) == text;
  }

  /** Writing out one entry of priority at least `op`'s does not change
      what pushing `op` produces. */
  lemma OperatorPopsOne(stack: seq<char>, text: string, op: char)
    requires AllKeys(stack) && IsPriorityKey(op)
    requires |stack| > 0 && Priority(stack[|stack| - 1]) >= Priority(op)
    ensures PushOperator(Conversion(stack, text), op)
         == PushOperator(Conversion(stack[..|stack| - 1], text + [stack[|stack| - 1], ' ']), op)
  {
    var top, below := stack[|stack| - 1], stack[..|stack| - 1];
    var p := PopWhileAtLeast(below, Priority(op));
    assert PopWhileAtLeast(stack, Priority(op)) == ([top] + p.0, p.1);
    SpacedAppend([top], p.0);
    Associative3(text, [top, ' '], Spaced(p.0));
  }

  lemma OperatorAtLower(stack: seq<char>, text: string, op: char)
    requires AllKeys(stack) && IsPriorityKey(op)
    requires |stack| == 0 || Priority(stack[|stack| - 1]) < Priority(op)
    ensures PushOperator(Conversion(stack, text), op) == Conversion(stack + [op], text)
  {
    assert PopWhileAtLeast(stack, Priority(op)) == ([], stack);
    assert text + Spaced([]) == text;
  }

  lemma FlushPopsOne(stack: seq<char>, text: string)
    requires |stack| > 0
    ensures Flushed(Conversion(stack, text))
         == Flushed(Conversion(stack[..|stack| - 1], text + [stack[|stack| - 1], ' ']))
  {
    var top, below := stack[|stack| - 1], stack[..|stack| - 1];
    ReverseLast(stack);
    SpacedAppend([top], Reverse(below));
    Associative3(text, [top, ' '], Spaced(Reverse(below)));
  }

  /** The `)` branch of `to_postfix_notation`: writes out the entries above
      the nearest `(`, then pops that `(`. */
  method CloseParenthesis(stack0: seq<char>, postfix0: string) returns (r: Result<Conversion>)
    requires AllKeys(stack0)
    ensures r == CloseParen(Conversion(stack0, postfix0))
  {
    var stack, postfix := stack0, postfix0;
    while |stack| > 0 && stack[|stack| - 1] != '('
      invariant AllKeys(stack)
      invariant CloseParen(Conversion(stack, postfix)) == CloseParen(Conversion(stack0, postfix0))
    {
      CloseParenPopsOne(stack, postfix);
      postfix := postfix + [stack[|stack| - 1], ' '];
      stack := stack[..|stack| - 1];
    }
    if |stack| == 0 {
      return Err(PopFromEmpty);
    }
    CloseParenAtOpen(stack, postfix);
    r := Ok(Conversion(stack[..|stack| - 1], postfix));
  }

  /** The operator branch of `to_postfix_notation`: writes out the entries of
      priority at least `operator`'s, then pushes `operator`. */
  method PushWithPriority(stack0: seq<char>, postfix0: string, operator: char) returns (stack: seq<char>, postfix: string)
    requires AllKeys(stack0) && IsPriorityKey(operator)
    ensures Conversion(stack, postfix) == PushOperator(Conversion(stack0, postfix0), operator)
  {
    stack, postfix := stack0, postfix0;
    while |stack| > 0 && Priority(stack[|stack| - 1]) >= Priority(operator)
      invariant AllKeys(stack)
      invariant PushOperator(Conversion(stack, postfix), operator) == PushOperator(Conversion(stack0, postfix0), operator)
    {
      OperatorPopsOne(stack, postfix, operator);
      postfix := postfix + [stack[|stack| - 1], ' '];
      stack := stack[..|stack| - 1];
    }
    OperatorAtLower(stack, postfix, operator);
    stack := stack + [operator];
  }

  /** `to_postfix_notation`: converts an infix text to its postfix text. */
  method ToPostfixNotation(infix: string) returns (r: Result<string>)
    ensures r == Convert(infix)
  {
    var postfix: string := [];
    var stack: seq<char> := [];
    for i := 0 to |infix|
      invariant AllKeys(stack)
      invariant ConvertFrom(infix, i, Conversion(stack, postfix)) == ConvertFrom(infix, 0, Conversion([], []))
    {
      var element := infix[i];
      ghost var current := Conversion(stack, postfix);
      if element == '.' {
        postfix := postfix + ['.'];
      }
      if IsDigit(element) {
        if i != |infix| - 1 && (IsDigit(infix[i + 1]) || infix[i + 1] == '.') {
          postfix := postfix + [element];
        } else {
          postfix := postfix + [element, ' '];
        }
      } else if element == '(' {
        stack := stack + ['('];
      } else if element == ')' {
        var closed := CloseParenthesis(stack, postfix);
        if closed.Err? {
          ConvertFails(infix, i, current);
          return Err(PopFromEmpty);
        }
        stack, postfix := closed.value.stack, closed.value.text;
      } else if IsPriorityKey(element) {
        var operator := element;
        if operator == '-' && (i == 0 || (i > 1 && IsPriorityKey(infix[i - 1]))) {
          operator := '~';
        }
        stack, postfix := PushWithPriority(stack, postfix, operator);
      }
      ConvertThen(infix, i, current, Conversion(stack, postfix));
    }
    ghost var converted := Conversion(stack, postfix);
    while |stack| > 0
      invariant Flushed(Conversion(stack, postfix)) == Flushed(converted)
    {
      FlushPopsOne(stack, postfix);
      postfix := postfix + [stack[|stack| - 1], ' '];
      stack := stack[..|stack| - 1];
    }
    assert Flushed(Conversion([], postfix)) == postfix;
    r := Ok(Strip(postfix));
  }

  // ---------------------------------------------------------------------
  // The evaluator

  /** Whether `calculate` reads the word as a number: `isdigit()`, or a `.`
      somewhere in it. */
  predicate IsNumberWord(w: string) {
    IsDigits(w) || '.' in w
  }

  /** Whether the word is one of the keys of the priority dictionary. */
  predicate IsKeyWord(w: string) {
    |w| == 1 && IsPriorityKey(w[0])
  }

  /** The loop body of `calculate` for one word: a number word goes through
      `float()`, which raises on a malformed literal such as `3.+`; a key
      word does what the same symbol does in the class version; any other
      word is skipped. */
  function WordStep(stack: seq<Value>, w: string): ClassEval.Outcome {
    if IsNumberWord(w) then
      match ParseFloat(w)
      case Err(e) => ClassEval.Stop(Err(e))
      case Ok(v) => ClassEval.Continue(stack + [Float(v)])
    else if IsKeyWord(w) then ClassEval.EvalStep(stack, Sym(w[0]))
    else ClassEval.Continue(stack)
  }

  /** The loop of `calculate` over the words. */
  function WordFold(stack: seq<Value>, ws: seq<string>): ClassEval.Outcome
    decreases |ws|
  {
    if ws == [] then ClassEval.Continue(stack)
    else
      match WordStep(stack, ws[0])
      case Stop(r) => ClassEval.Stop(r)
      case Continue(next) => WordFold(next, ws[1..])
  }

  /** The result of `calculate` on a postfix text. */
  function Evaluate(postfix: string): Result<Value> {
    ClassEval.Finish(WordFold([], Words(postfix)))
  }

  lemma WordFoldAt(stack: seq<Value>, ws: seq<string>, k: nat)
    requires k < |ws|
    ensures WordFold(stack, ws[k..]) == match WordStep(stack, ws[k])
                                        case Stop(r) => ClassEval.Stop(r)
                                        case Continue(next) => WordFold(next, ws[k + 1..])
  {
    assert ws[k..][1..] == ws[k + 1..];
  }

  /** `calculate`: splits the postfix text into words and evaluates them on
      a value stack. */
  method Calculate(prefixNotation: string) returns (r: Result<Value>)
    ensures r == Evaluate(prefixNotation)
  {
    var words := Words(prefixNotation);
    var local: seq<Value> := [];
    for i := 0 to |words|
      invariant ClassEval.Finish(WordFold(local, words[i..])) == Evaluate(prefixNotation)
    {
      var element := words[i];
      WordFoldAt(local, words, i);
      if IsDigits(element) || '.' in element {
        var v := ParseFloat(element);
        if v.Err? {
          return Err(v.error);
        }
        local := local + [Float(v.value)];
      } else if |element| == 1 && IsPriorityKey(element[0]) {
        var op := element[0];
        if op == '~' {
          var last: Value;
          if |local| > 0 {
            last := local[|local| - 1];
            local := local[..|local| - 1];
          } else {
            last := Int(0);
          }
          var negated := ExecuteOperation('-', Int(0), last);
          local := local + [negated.value];
          continue;
        }
        var second: Value;
        if |local| > 0 {
          second := local[|local| - 1];
          local := local[..|local| - 1];
        } else {
          second := Int(0);
        }
        var first: Value;
        if |local| > 0 {
          first := local[|local| - 1];
          local := local[..|local| - 1];
        } else {
          first := Int(0);
        }
        var outcome := ExecuteOperation(op, first, second);
        if outcome.Ok? && outcome.value.Float? {
          local := local + [outcome.value];
        } else {
          return outcome;
        }
      }
    }
    if |local| == 0 {
      return Err(PopFromEmpty);
    }
    r := Ok(local[|local| - 1]);
  }

  /** The result of `process_calculation_query`: the conversion's failure,
      or the evaluation of its text. */
  function Process(query: string): Result<Value> {
    match Convert(query)
    case Err(e) => Err(e)
    case Ok(p) => Evaluate(p)
  }

  /** `process_calculation_query`, without the printing of the postfix text. */
  method ProcessCalculationQuery(query: string) returns (r: Result<Value>)
    ensures r == Process(query)
  {
    var polishNotation := ToPostfixNotation(query);
    if polishNotation.Err? {
      return Err(polishNotation.error);
    }
    r := Calculate(polishNotation.value);
  }

  // ---------------------------------------------------------------------
  // The postfix text is single-spaced

  lemma {:induction false} ReverseKeys(s: seq<char>)
    requires AllKeys(s)
    ensures AllKeys(Reverse(s))
  {
    if s != [] {
      ReverseKeys(s[1..]);
    }
  }

  lemma KeysAreNoSpace(cs: seq<char>)
    requires AllKeys(cs)
    ensures forall k :: 0 <= k < |cs| ==> !IsSpace(cs[k])
  {
  }

  /** One step writes single-spaced text after single-spaced text. */
  lemma StepKeepsSpacing(s: string, i: nat, st: Conversion)
    requires i < |s| && AllKeys(st.stack) && SingleSpaced(st.text)
    requires ConvertStep(s, i, st).Ok?
    ensures SingleSpaced(ConvertStep(s, i, st).value.text)
  {
    var c := s[i];
    if c == '.' {
      SingleSpacedAppend(st.text, ['.']);
    } else if IsDigit(c) {
      SingleSpacedAppend(st.text, DigitText(s, i));
    } else if c == ')' {
      var p := PopToOpenParen(st.stack).value;
      KeysAreNoSpace(p.0);
      SpacedIsSingleSpaced(p.0);
      SingleSpacedAppend(st.text, Spaced(p.0));
    } else if c != '(' && IsPriorityKey(c) {
      var p := PopWhileAtLeast(st.stack, Priority(Classify(s, i)));
      KeysAreNoSpace(p.0);
      SpacedIsSingleSpaced(p.0);
      SingleSpacedAppend(st.text, Spaced(p.0));
    }
  }

  lemma {:induction false} ConvertKeepsSpacing(s: string, i: nat, st: Conversion)
    requires i <= |s| && AllKeys(st.stack) && SingleSpaced(st.text)
    requires ConvertFrom(s, i, st).Ok?
    ensures SingleSpaced(ConvertFrom(s, i, st).value.text)
    ensures AllKeys(ConvertFrom(s, i, st).value.stack)
    decreases |s| - i
  {
    if i < |s| {
      StepKeepsSpacing(s, i, st);
      ConvertKeepsSpacing(s, i + 1, ConvertStep(s, i, st).value);
    }
  }

  /** A prefix of a single-spaced text is single-spaced. */
  lemma SingleSpacedPrefix(t: string, n: nat)
    requires SingleSpaced(t) && n <= |t|
    ensures SingleSpaced(t[..n])
  {
    assert forall k :: 0 <= k < n ==> t[..n][k] == t[k];
  }

  /** The text `to_postfix_notation` returns has no whitespace at either end,
      and its words are separated by single spaces. */
  lemma ConvertIsSingleSpaced(s: string)
    requires Convert(s).Ok?
    ensures SingleSpaced(Convert(s).value)
    ensures Convert(s).value == [] || (!IsSpace(Convert(s).value[0]) && !IsSpace(Convert(s).value[|Convert(s).value| - 1]))
  {
    var st := ConvertFrom(s, 0, Conversion([], [])).value;
    ConvertKeepsSpacing(s, 0, Conversion([], []));
    ReverseKeys(st.stack);
    KeysAreNoSpace(Reverse(st.stack));
    SpacedIsSingleSpaced(Reverse(st.stack));
    var t := Flushed(st);
    SingleSpacedAppend(st.text, Spaced(Reverse(st.stack)));
    assert TrimStart(t) == t;
    SingleSpacedPrefix(t, |TrimEnd(t)|);
  }

  // ---------------------------------------------------------------------
  // Words evaluate as the tokens they stand for

  /** The word `w` stands for the token `t`: a number word whose `float()`
      value is `t`'s, or the one-character word of a priority key. */
  predicate WordMeans(w: string, t: Token) {
    match t
    case Num(v) => IsNumberWord(w) && ParseFloat(w) == Ok(v)
    case Sym(c) => w == [c] && IsPriorityKey(c)
  }

  predicate Means(ws: seq<string>, ts: seq<Token>) {
    |ws| == |ts| && forall k :: 0 <= k < |ws| ==> WordMeans(ws[k], ts[k])
  }

  /** A word does to the value stack what the token it stands for does in
      the class version's `calculate`. */
  lemma WordStepMeans(stack: seq<Value>, w: string, t: Token)
    requires WordMeans(w, t)
    ensures WordStep(stack, w) == ClassEval.EvalStep(stack, t)
  {
    if t.Sym? {
      assert !IsDigit(w[0]);
      assert '.' !in w;
    }
  }

  lemma {:induction false} WordFoldIsFold(stack: seq<Value>, ws: seq<string>, ts: seq<Token>)
    requires Means(ws, ts)
    ensures WordFold(stack, ws) == ClassEval.Fold(stack, ts)
    decreases |ws|
  {
    if ws != [] {
      WordStepMeans(stack, ws[0], ts[0]);
      match WordStep(stack, ws[0])
      case Stop(_) =>
      case Continue(next) =>
        assert Means(ws[1..], ts[1..]);
        WordFoldIsFold(next, ws[1..], ts[1..]);
    }
  }

  /** A postfix text whose words stand for a token sequence evaluates as
      the class version evaluates that sequence. */
  lemma EvaluateMeans(p: string, ts: seq<Token>)
    requires Means(Words(p), ts)
    ensures Evaluate(p) == ClassEval.Eval(ts)
  {
    WordFoldIsFold([], Words(p), ts);
  }

  /** The words of the returned text are those of the flushed text. */
  lemma ConvertWords(s: string)
    requires Convert(s).Ok?
    ensures Words(Convert(s).value) == Words(Flushed(ConvertFrom(s, 0, Conversion([], [])).value))
  {
    var st := ConvertFrom(s, 0, Conversion([], [])).value;
    ConvertKeepsSpacing(s, 0, Conversion([], []));
    ReverseKeys(st.stack);
    KeysAreNoSpace(Reverse(st.stack));
    SpacedIsSingleSpaced(Reverse(st.stack));
    SingleSpacedAppend(st.text, Spaced(Reverse(st.stack)));
    assert TrimStart(Flushed(st)) == Flushed(st);
    WordsTrimEnd(Flushed(st));
  }
}
