/** How the two calculators relate. On a query without whitespace, made
    of digits and `. + - * ^ / ( )` only, and whose dots each stand between
    two digits of a single number, `calculator.py` returns what
    `calculator_class.py` returns: the text its converter writes splits into
    words that stand, one by one, for the class converter's tokens. */
module CalculatorVersions {
  import opened Common
  import opened ClassLexer
  import opened ClassPostfix
  import ClassEval
  import ClassCalculator
  import opened StringCalculator

  /** The `.` at index `k` has a digit on each side, and the digits after
      it are not followed by another `.`. */
  predicate DotBetweenDigits(q: string, k: nat)
    requires k < |q|
  {
    && 0 < k && IsDigit(q[k - 1])
    && k + 1 < |q| && IsDigit(q[k + 1])
    && (DigitsEnd(q, k + 1) == |q| || q[DigitsEnd(q, k + 1)] != '.')
  }

  /** A query both versions read the same way. */
  predicate WellFormed(q: string) {
    && (forall k :: 0 <= k < |q| ==> !IsSpace(q[k]) && IsAllowed(q[k]))
    && (forall k :: 0 <= k < |q| && q[k] == '.' ==> DotBetweenDigits(q, k))
  }

  /** The two converters' states agree: the same operator stack, and the
      text written so far splits into words that stand for the tokens
      output so far. */
  predicate Related(c: Conversion, st: Shunting) {
    c.stack == st.stack && EndsInSpace(c.text) && Means(Words(c.text), st.out)
  }

  lemma MeansAppend(a: seq<string>, b: seq<Token>, c: seq<string>, d: seq<Token>)
    requires Means(a, b) && Means(c, d)
    ensures Means(a + c, b + d)
  {
    forall k | 0 <= k < |a + c| ensures WordMeans((a + c)[k], (b + d)[k]) {
      if k >= |a| {
        assert (a + c)[k] == c[k - |a|];
        assert (b + d)[k] == d[k - |a|];
      }
    }
  }

  lemma {:induction false} MeansSymbols(cs: seq<char>)
    requires AllKeys(cs)
    ensures Means(Singles(cs), Symbols(cs))
  {
    if cs != [] {
      MeansSymbols(cs[1..]);
      assert Singles(cs) == [[cs[0]]] + Singles(cs[1..]);
      MeansAppend([[cs[0]]], [Sym(cs[0])], Singles(cs[1..]), Symbols(cs[1..]));
    }
  }

  /** Writing out operators keeps the two outputs in step. */
  lemma RelatedSpaced(text: string, out: seq<Token>, cs: seq<char>)
    requires EndsInSpace(text) && Means(Words(text), out) && AllKeys(cs)
    ensures EndsInSpace(text + Spaced(cs))
    ensures Means(Words(text + Spaced(cs)), out + Symbols(cs))
  {
    KeysAreNoSpace(cs);
    WordsSpaced(text, cs);
    MeansSymbols(cs);
    MeansAppend(Words(text), out, Singles(cs), Symbols(cs));
  }

  /** On an operator or a parenthesis both converters take the same step. */
  lemma SymbolStep(q: string, i: nat, c: Conversion, st: Shunting)
    requires i < |q| && !IsDigit(q[i]) && q[i] != '.' && IsAllowed(q[i]) && !IsSpace(q[i])
    requires AllKeys(c.stack) && Related(c, st)
    ensures ConvertStep(q, i, c).Err? <==> Step(st, Sym(Classify(q, i))).Err?
    ensures ConvertStep(q, i, c).Ok? ==> Related(ConvertStep(q, i, c).value, Step(st, Sym(Classify(q, i))).value)
  {
    var x := q[i];
    if x == ')' {
      var r := PopToOpenParen(c.stack);
      if r.Ok? {
        RelatedSpaced(c.text, st.out, r.value.0);
      }
    } else if x != '(' {
      var p := PopWhileAtLeast(c.stack, Priority(Classify(q, i)));
      RelatedSpaced(c.text, st.out, p.0);
    }
  }

  /** The characters of a number are digits or dots, and the number ends in
      a digit that is followed by neither. */
  lemma LiteralShape(q: string, i: nat)
    requires WellFormed(q) && i < |q| && IsDigit(q[i])
    ensures var j := NumeralEnd(q, i);
      && (forall m :: i <= m < j ==> IsDigit(q[m]) || q[m] == '.')
      && IsDigit(q[j - 1])
      && (j == |q| || (!IsDigit(q[j]) && q[j] != '.'))
  {
    var d := DigitsEnd(q, i);
    if d < |q| && q[d] == '.' {
      assert DotBetweenDigits(q, d);
    }
  }

  /** The string converter writes a number character by character and then
      a space. */
  lemma {:induction false} ConvertNumber(q: string, k: nat, j: nat, c: Conversion)
    requires k < j <= |q| && AllKeys(c.stack)
    requires forall m :: k <= m < j ==> IsDigit(q[m]) || q[m] == '.'
    requires IsDigit(q[j - 1]) && (j == |q| || (!IsDigit(q[j]) && q[j] != '.'))
    ensures ConvertFrom(q, k, c) == ConvertFrom(q, j, Conversion(c.stack, c.text + q[k..j] + " "))
    decreases j - k
  {
    if k == j - 1 {
      assert ConvertStep(q, k, c) == Ok(Conversion(c.stack, c.text + [q[k], ' ']));
      assert c.text + q[k..j] + " " == c.text + [q[k], ' '];
    } else {
      var after := Conversion(c.stack, c.text + [q[k]]);
      assert ConvertStep(q, k, c) == Ok(after);
      ConvertNumber(q, k + 1, j, after);
      assert after.text + q[k + 1..j] == c.text + q[k..j];
    }
  }

  /** The word a number becomes stands for the number token of the class
      scanner. */
  lemma NumberMeans(q: string, i: nat)
    requires WellFormed(q) && i < |q| && IsDigit(q[i])
    ensures IsWord(q[i..NumeralEnd(q, i)])
    ensures WordMeans(q[i..NumeralEnd(q, i)], Num(DecimalValue(q[i..NumeralEnd(q, i)])))
  {
    var j := NumeralEnd(q, i);
    var w := q[i..j];
    LiteralShape(q, i);
    ScanLiteral(q, i, j);
    assert forall m :: 0 <= m < |w| ==> w[m] == q[i + m];
    if '.' !in w {
      assert IsDigits(w);
    }
  }

  /** On a number both converters take the same step. */
  lemma LiteralStep(q: string, i: nat, c: Conversion, st: Shunting)
    requires WellFormed(q) && i < |q| && IsDigit(q[i])
    requires AllKeys(c.stack) && Related(c, st)
    ensures var j := NumeralEnd(q, i);
      && ConvertFrom(q, i, c) == ConvertFrom(q, j, Conversion(c.stack, c.text + q[i..j] + " "))
      && Related(Conversion(c.stack, c.text + q[i..j] + " "), Shunting(st.stack, st.out + [Num(DecimalValue(q[i..j]))]))
      && (j < |q| ==> q[j] != '.')
  {
    var j := NumeralEnd(q, i);
    var w := q[i..j];
    LiteralShape(q, i);
    ConvertNumber(q, i, j, c);
    NumberMeans(q, i);
    WordsWordSpace(c.text, w);
    MeansAppend(Words(c.text), st.out, [w], [Num(DecimalValue(w))]);
  }

  lemma ShuntCons(st: Shunting, t: Token, rest: seq<Token>)
    requires AllKeys(st.stack)
    ensures Step(st, t).Err? ==> ShuntFrom(st, [t] + rest) == Err(Step(st, t).error)
    ensures Step(st, t).Ok? ==> ShuntFrom(st, [t] + rest) == ShuntFrom(Step(st, t).value, rest)
  {
    ShuntFromStep(st, [t] + rest);
    assert ([t] + rest)[1..] == rest;
  }

  /** At the end, flushing the stack keeps the outputs in step. */
  lemma FlushMeans(c: Conversion, st: Shunting)
    requires AllKeys(c.stack) && Related(c, st)
    ensures ShuntFrom(st, []) == Ok(st.out + Symbols(Reverse(st.stack)))
    ensures Means(Words(Flushed(c)), st.out + Symbols(Reverse(st.stack)))
  {
    ReverseKeys(c.stack);
    RelatedSpaced(c.text, st.out, Reverse(c.stack));
  }

  /** The two converters, run over a query from index `i` on, fail together
      (on a `)` without `(`), and otherwise the string converter writes a
      text whose words stand for the class converter's tokens. */
  predicate Agree(q: string, i: nat, c: Conversion, st: Shunting)
    requires i <= |q| && AllKeys(c.stack) && AllKeys(st.stack)
  {
    && (ConvertFrom(q, i, c).Err? <==> ShuntFrom(st, RefLex(q, i)).Err?)
    && (ShuntFrom(st, RefLex(q, i)).Err? ==> ShuntFrom(st, RefLex(q, i)).error == PopFromEmpty)
    && (ConvertFrom(q, i, c).Ok? ==> Means(Words(Flushed(ConvertFrom(q, i, c).value)), ShuntFrom(st, RefLex(q, i)).value))
  }

  /** In a well-formed query a `.` never follows an operator or a parenthesis. */
  lemma NoDotAfterSymbol(q: string, i: nat)
    requires WellFormed(q) && i + 1 < |q| && !IsDigit(q[i])
    ensures q[i + 1] != '.'
  {
  }

  lemma AgreeLiteral(q: string, i: nat, c: Conversion, st: Shunting)
    requires WellFormed(q) && i < |q| && IsDigit(q[i])
    requires AllKeys(c.stack) && Related(c, st)
    requires var j := NumeralEnd(q, i);
      Agree(q, j, Conversion(c.stack, c.text + q[i..j] + " "), Shunting(st.stack, st.out + [Num(DecimalValue(q[i..j]))]))
    ensures Agree(q, i, c, st)
  {
    var j := NumeralEnd(q, i);
    LiteralStep(q, i, c, st);
    var t := Num(DecimalValue(q[i..j]));
    assert RefLex(q, i) == [t] + RefLex(q, j);
    ShuntCons(st, t, RefLex(q, j));
  }

  lemma AgreeSymbol(q: string, i: nat, c: Conversion, st: Shunting)
    requires i < |q| && !IsDigit(q[i]) && q[i] != '.' && IsAllowed(q[i]) && !IsSpace(q[i])
    requires AllKeys(c.stack) && Related(c, st)
    requires ConvertStep(q, i, c).Ok? ==>
      Step(st, Sym(Classify(q, i))).Ok?
      && Agree(q, i + 1, ConvertStep(q, i, c).value, Step(st, Sym(Classify(q, i))).value)
    ensures Agree(q, i, c, st)
  {
    SymbolStep(q, i, c, st);
    var t := Sym(Classify(q, i));
    assert IsSymbolChar(q[i]);
    assert RefLex(q, i) == [t] + RefLex(q, i + 1);
    ShuntCons(st, t, RefLex(q, i + 1));
  }

  /** From related states, the two converters agree on the rest of a
      well-formed query. */
  lemma {:induction false} Simulate(q: string, i: nat, c: Conversion, st: Shunting)
    requires WellFormed(q) && i <= |q| && (i < |q| ==> q[i] != '.')
    requires AllKeys(c.stack) && Related(c, st)
    ensures Agree(q, i, c, st)
    decreases |q| - i
  {
    if i == |q| {
      FlushMeans(c, st);
    } else if IsDigit(q[i]) {
      var j := NumeralEnd(q, i);
      LiteralStep(q, i, c, st);
      Simulate(q, j, Conversion(c.stack, c.text + q[i..j] + " "), Shunting(st.stack, st.out + [Num(DecimalValue(q[i..j]))]));
      AgreeLiteral(q, i, c, st);
    } else {
      SymbolStep(q, i, c, st);
      if ConvertStep(q, i, c).Ok? {
        if i + 1 < |q| {
          NoDotAfterSymbol(q, i);
        }
        Simulate(q, i + 1, ConvertStep(q, i, c).value, Step(st, Sym(Classify(q, i))).value);
      }
      AgreeSymbol(q, i, c, st);
    }
  }

  /** On a well-formed query, `calculator.py` computes what
      `calculator_class.py` computes, errors included. */
  lemma VersionsAgree(q: string)
    requires WellFormed(q)
    ensures Process(q) == ClassCalculator.Query(q)
  {
    ClassCalculator.QueryOfAllowed(q);
    LexIsMaximalMunch(q);
    Simulate(q, 0, Conversion([], []), Shunting([], []));
    if Convert(q).Ok? {
      ConvertWords(q);
      EvaluateMeans(Convert(q).value, Postfix(Lex(q)).value);
    }
  }
}
