/** `process_calculation_query` of `calculator_class.py`: whitespace
    removal, validation, conversion to postfix and evaluation. */
module ClassCalculator {
  import opened Common
  import opened ClassLexer
  import opened ClassPostfix
  import opened ClassEval

  /** A character the validating expression rejects. */
  predicate IsRejected(c: char) {
    !IsSpace(c) && !IsAllowed(c)
  }

  /** The result of a query: the message for an invalid input, the failure
      of the conversion, or what `calculate` returns. */
  function Query(query: string): (r: Result<Value>)
    ensures r == Err(InvalidInput) <==> exists k :: 0 <= k < |query| && IsRejected(query[k])
    ensures r.Err? && r.error != InvalidInput ==> IsEvaluationError(r.error)
  {
    var q := RemoveWhitespace(query);
    ValidateStripped(query);
    if !ValidateInput(q) then Err(InvalidInput)
    else
      match Postfix(Lex(q))
      case Err(e) => PostfixFails(Lex(q)); Err(e)
      case Ok(p) => EvalErrors(p); Eval(p)
  }

  /** Validating the stripped query is validating the query. */
  lemma ValidateStripped(query: string)
    ensures ValidateInput(RemoveWhitespace(query)) <==> !exists k :: 0 <= k < |query| && IsRejected(query[k])
  {
    var q := RemoveWhitespace(query);
    if exists k :: 0 <= k < |query| && IsRejected(query[k]) {
      var k :| 0 <= k < |query| && IsRejected(query[k]);
      assert query[k] in q;
      var j :| 0 <= j < |q| && q[j] == query[k];
      assert !ValidateInput(q);
    } else {
      forall j | 0 <= j < |q| ensures IsSpace(q[j]) || IsAllowed(q[j]) {
        assert q[j] in query;
      }
    }
  }

  /** On a query made of allowed characters only, the result is that of
      converting and evaluating the query itself. */
  lemma QueryOfAllowed(query: string)
    requires forall k :: 0 <= k < |query| ==> !IsSpace(query[k]) && IsAllowed(query[k])
    ensures Query(query) == match Postfix(Lex(query))
                            case Err(e) => Err(e)
                            case Ok(p) => Eval(p)
  {
    RemoveWhitespaceKeeps(query);
  }

  /** `process_calculation_query`. */
  method ProcessCalculationQuery(query: string) returns (r: Result<Value>)
    ensures r == Query(query)
  {
    var q := RemoveWhitespace(query);
    var validInput := ValidateInput(q);
    if !validInput {
      return Err(InvalidInput);
    }
    var polishNotation := ToPostfixNotation(q);
    if polishNotation.Err? {
      return Err(polishNotation.error);
    }
    r := Calculate(polishNotation.value);
  }

  // ---------------------------------------------------------------------
  // Unbalanced parentheses

  /** Opening minus closing parentheses of a text. */
  function ParenExcess(s: string): int {
    multiset(s)['('] as int - multiset(s)[')'] as int
  }

  /** A prefix that closes more parentheses than it opens can be cut back
      to one that ends with its last `)`. */
  lemma {:induction false} ShortestOverclosing(s: string, n: nat) returns (m: nat)
    requires 0 < n <= |s| && ParenExcess(s[..n]) < 0
    ensures 0 < m <= n && s[m - 1] == ')' && ParenExcess(s[..m]) < 0
    decreases n
  {
    assert s[..n] == s[..n - 1] + [s[n - 1]];
    if s[n - 1] == ')' {
      m := n;
    } else {
      assert ParenExcess(s[..n - 1]) < 0;
      m := ShortestOverclosing(s, n - 1);
    }
  }

  lemma {:induction false} RemoveWhitespaceCount(s: string, c: char)
    requires !IsSpace(c)
    ensures multiset(RemoveWhitespace(s))[c] == multiset(s)[c]
  {
    if s != [] {
      assert s == [s[0]] + s[1..];
      RemoveWhitespaceCount(s[1..], c);
    }
  }

  /** A valid query whose whitespace-free text has a prefix with more `)`
      than `(` (such as `())(`) fails in the conversion, on the `stack.pop()`
      of a `)` that finds no `(`. */
  lemma OverclosedQuery(query: string, n: nat)
    requires forall k :: 0 <= k < |query| ==> !IsRejected(query[k])
    requires 0 < n <= |RemoveWhitespace(query)| && ParenExcess(RemoveWhitespace(query)[..n]) < 0
    ensures Query(query) == Err(PopFromEmpty)
  {
    var q := RemoveWhitespace(query);
    var m := ShortestOverclosing(q, n);
    var ts := Lex(q);
    var head := Lex(q[..m]);
    LexPrefix(q, m);
    assert ts[..|head|] == head;
    LexParens(q[..m], '(');
    LexParens(q[..m], ')');
    assert Depth(ts[..|head|]) < 0;
    PostfixFails(ts);
  }

  /** A valid query with more `)` than `(` fails in the conversion. */
  lemma MoreClosingThanOpening(query: string)
    requires forall k :: 0 <= k < |query| ==> !IsRejected(query[k])
    requires multiset(query)[')'] > multiset(query)['(']
    ensures Query(query) == Err(PopFromEmpty)
  {
    var q := RemoveWhitespace(query);
    RemoveWhitespaceCount(query, '(');
    RemoveWhitespaceCount(query, ')');
    assert q[..|q|] == q;
    OverclosedQuery(query, |q|);
  }

  /** A valid query with more `(` than `)` never yields a float: the
      unclosed `(` is flushed into the postfix sequence, where `calculate`
      takes it for an unsupported operation unless it has returned before. */
  lemma MoreOpeningThanClosing(query: string)
    requires forall k :: 0 <= k < |query| ==> !IsRejected(query[k])
    requires multiset(query)['('] > multiset(query)[')']
    ensures Query(query).Err? || Query(query).value.Int?
  {
    var q := RemoveWhitespace(query);
    var ts := Lex(q);
    if Postfix(ts).Ok? {
      RemoveWhitespaceCount(query, '(');
      RemoveWhitespaceCount(query, ')');
      LexParens(q, '(');
      LexParens(q, ')');
      PostfixContents(ts);
      assert Sym('(') in Postfix(ts).value;
      OpenParenIsNeverFloat([], Postfix(ts).value);
    }
  }

  /** A float result comes only from a query whose parentheses balance. */
  lemma FloatResultIsBalanced(query: string)
    requires Query(query).Ok? && Query(query).value.Float?
    ensures multiset(query)['('] == multiset(query)[')']
  {
    if multiset(query)['('] > multiset(query)[')'] {
      MoreOpeningThanClosing(query);
    } else if multiset(query)['('] < multiset(query)[')'] {
      MoreClosingThanOpening(query);
    }
  }
}
