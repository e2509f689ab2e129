/** Worked examples: the queries of the repository's test suite, taken
    through the model of `calculator_class.py` (scanning, conversion to
    postfix, evaluation) and, at the end, through `Query` itself.

    Each query is handled in three stages. The scanner and the converter
    are followed token by token over sequences that are fixed entry by
    entry (`q[k] == ...`); the evaluator is followed over the postfix
    sequence in the same way. A final lemma states the outcome on the
    literal query. */
module ClassExamples {
  import opened Common
  import opened ClassLexer
  import opened ClassPostfix
  import opened ClassEval
  import opened ClassCalculator

  /** An operator or parenthesis yields one symbol token. */
  lemma SymbolLexeme(s: string, i: nat, c: char)
    requires i < |s| && IsSymbolChar(s[i]) && Classify(s, i) == c
    ensures LexFrom(s, i, []) == [Sym(c)] + LexFrom(s, i + 1, [])
  {
    assert !Extends([], s[i]);
    LexFromBreak(s, i, []);
  }

  /** A literal yields one number token. */
  lemma NumberLexeme(s: string, i: nat, j: nat, v: real)
    requires i < |s| && IsDigit(s[i]) && NumeralEnd(s, i) == j && DecimalValue(s[i..j]) == v
    ensures LexFrom(s, i, []) == [Num(v)] + LexFrom(s, j, [])
  {
    LexLiteral(s, i);
  }

  lemma TakeExtend<T>(p: seq<T>, m: nat, n: nat)
    requires m <= n <= |p|
    ensures p[..m] + p[m..n] == p[..n]
  {
  }

  lemma DropCons<T>(p: seq<T>, n: nat)
    requires n < |p|
    ensures p[n..] == [p[n]] + p[n + 1..]
  {
  }

  // Stack facts shared by the examples

  lemma Literal0()
    ensures DecimalValue("0") == 0.0
  {
    assert DotIndex("0") == 1;
    assert "0"[..1] == "0";
    assert DigitsValue("0") == 0;
  }

  lemma Literal1()
    ensures DecimalValue("1") == 1.0
  {
    assert DotIndex("1") == 1;
    assert "1"[..1] == "1";
    assert DigitsValue("1") == 1;
  }

  lemma Literal2()
    ensures DecimalValue("2") == 2.0
  {
    assert DotIndex("2") == 1;
    assert "2"[..1] == "2";
    assert DigitsValue("2") == 2;
  }

  lemma Literal23()
    ensures DecimalValue("23") == 23.0
  {
    assert DotIndex("23") == 2;
    assert "23"[..2] == "23";
    assert "23"[..1] == "2";
    assert DigitsValue("23") == 23;
  }

  lemma Literal3()
    ensures DecimalValue("3") == 3.0
  {
    assert DotIndex("3") == 1;
    assert "3"[..1] == "3";
    assert DigitsValue("3") == 3;
  }

  lemma Literal3Dot2()
    ensures DecimalValue("3.2") == 3.2
  {
    assert DotIndex("3.2") == 1;
    assert "3.2"[..1] == "3";
    assert DigitsValue("3") == 3;
    assert "3.2"[2..] == "2";
    assert DigitsValue("2") == 2;
    assert Pow10(1) == 10;
  }

  lemma Literal4()
    ensures DecimalValue("4") == 4.0
  {
    assert DotIndex("4") == 1;
    assert "4"[..1] == "4";
    assert DigitsValue("4") == 4;
  }

  lemma Literal45()
    ensures DecimalValue("45") == 45.0
  {
    assert DotIndex("45") == 2;
    assert "45"[..2] == "45";
    assert "45"[..1] == "4";
    assert DigitsValue("45") == 45;
  }

  lemma Literal456()
    ensures DecimalValue("456") == 456.0
  {
    assert DotIndex("456") == 3;
    assert "456"[..3] == "456";
    assert "456"[..2] == "45";
    assert "45"[..1] == "4";
    assert DigitsValue("456") == 456;
  }

  lemma Literal5()
    ensures DecimalValue("5") == 5.0
  {
    assert DotIndex("5") == 1;
    assert "5"[..1] == "5";
    assert DigitsValue("5") == 5;
  }

  lemma Literal58()
    ensures DecimalValue("58") == 58.0
  {
    assert DotIndex("58") == 2;
    assert "58"[..2] == "58";
    assert "58"[..1] == "5";
    assert DigitsValue("58") == 58;
  }

  lemma Literal5Dot78()
    ensures DecimalValue("5.78") == 5.78
  {
    assert DotIndex("5.78") == 1;
    assert "5.78"[..1] == "5";
    assert DigitsValue("5") == 5;
    assert "5.78"[2..] == "78";
    assert "78"[..1] == "7";
    assert DigitsValue("78") == 78;
    assert Pow10(2) == 100;
  }

  lemma Literal6()
    ensures DecimalValue("6") == 6.0
  {
    assert DotIndex("6") == 1;
    assert "6"[..1] == "6";
    assert DigitsValue("6") == 6;
  }

  lemma Literal7()
    ensures DecimalValue("7") == 7.0
  {
    assert DotIndex("7") == 1;
    assert "7"[..1] == "7";
    assert DigitsValue("7") == 7;
  }

  /** Nothing is popped from an empty stack. */
  lemma PopEmpty(p: nat)
    ensures PopWhileAtLeast([], p) == ([], [])
  {
  }

  /** A lone binary operator is popped by any binary operator. */
  lemma PopAlone(c: char)
    requires IsBinaryOperator(c)
    ensures PopWhileAtLeast([c], 1) == ([c], [])
  {
    PopEmpty(1);
    assert [c][..0] == [];
    assert [c] + [] == [c];
  }

  lemma PopMinus2()
    ensures PopWhileAtLeast(['-'], 2) == ([], ['-'])
  {
    assert ['-'][..0] == [];
  }

  /** A `(` on top of one entry is popped alone. */
  lemma PopOpenOver(c: char)
    requires IsPriorityKey(c)
    ensures PopToOpenParen([c, '(']) == Ok(([], [c]))
  {
    assert [c, '('][..1] == [c];
  }

  lemma PopMinusOpen1()
    ensures PopWhileAtLeast(['-', '('], 1) == ([], ['-', '('])
  {
    assert ['-', '('][..1] == ['-'];
  }

  lemma PopMinusOpen4()
    ensures PopWhileAtLeast(['-', '('], 4) == ([], ['-', '('])
  {
    assert ['-', '('][..1] == ['-'];
  }

  lemma PopMinusOpenNeg1()
    ensures PopWhileAtLeast(['-', '(', '~'], 1) == (['~'], ['-', '('])
  {
    PopMinusOpen1();
    assert ['-', '(', '~'][..2] == ['-', '('];
    assert ['~'] + [] == ['~'];
  }

  /** One entry over a `(` over another entry: the `)` pops the first and the `(`. */
  lemma PopOneOverOpen(c: char, d: char)
    requires IsPriorityKey(c) && IsPriorityKey(d) && d != '('
    ensures PopToOpenParen([c, '(', d]) == Ok(([d], [c]))
  {
    PopOpenOver(c);
    assert [c, '(', d][..2] == [c, '('];
    assert [d] + [] == [d];
  }

  lemma PopMinusTimes1()
    ensures PopWhileAtLeast(['-', '*'], 1) == (['*', '-'], [])
  {
    PopAlone('-');
    assert ['-', '*'][..1] == ['-'];
    assert ['*'] + ['-'] == ['*', '-'];
  }

  lemma PopNeg2()
    ensures PopWhileAtLeast(['~'], 2) == (['~'], [])
  {
    PopEmpty(2);
    assert ['~'][..0] == [];
    assert ['~'] + [] == ['~'];
  }

  lemma PopOpen()
    ensures PopToOpenParen(['(']) == Ok(([], []))
  {
    assert ['('][..0] == [];
  }

  /** A lone `(` is never popped by an operator. */
  lemma PopOpenStays(p: nat)
    requires p >= 1
    ensures PopWhileAtLeast(['('], p) == ([], ['('])
  {
    assert ['('][..0] == [];
  }

  /** One entry over a `(` is popped with it. */
  lemma PopOpenUnder(c: char)
    requires IsPriorityKey(c) && c != '('
    ensures PopToOpenParen(['(', c]) == Ok(([c], []))
  {
    PopOpen();
    assert ['(', c][..1] == ['('];
    assert [c] + [] == [c];
  }

  lemma PopOpenMinus2()
    ensures PopWhileAtLeast(['(', '-'], 2) == ([], ['(', '-'])
  {
    assert ['(', '-'][..1] == ['('];
  }

  lemma PopOpenMinusTimes()
    ensures PopToOpenParen(['(', '-', '*']) == Ok((['*', '-'], []))
  {
    PopOpenUnder('-');
    assert ['(', '-', '*'][..2] == ['(', '-'];
    assert ['*'] + ['-'] == ['*', '-'];
  }

  lemma PopPlus2()
    ensures PopWhileAtLeast(['+'], 2) == ([], ['+'])
  {
    assert ['+'][..0] == [];
  }

  lemma PopPlus3()
    ensures PopWhileAtLeast(['+'], 3) == ([], ['+'])
  {
    assert ['+'][..0] == [];
  }

  lemma PopPlusDivOpen()
    ensures PopToOpenParen(['+', '/', '(']) == Ok(([], ['+', '/']))
  {
    assert ['+', '/', '('][..2] == ['+', '/'];
  }

  lemma PopPlusDivOpen1()
    ensures PopWhileAtLeast(['+', '/', '('], 1) == ([], ['+', '/', '('])
  {
    assert ['+', '/', '('][..2] == ['+', '/'];
  }

  lemma PopPlusDivOpenPlus()
    ensures PopToOpenParen(['+', '/', '(', '+']) == Ok((['+'], ['+', '/']))
  {
    PopPlusDivOpen();
    assert ['+', '/', '(', '+'][..3] == ['+', '/', '('];
    assert ['+'] + [] == ['+'];
  }


  lemma PopTimesOpen4()
    ensures PopWhileAtLeast(['*', '('], 4) == ([], ['*', '('])
  {
    assert ['*', '('][..1] == ['*'];
  }

  lemma SymbolsTimesMinus()
    ensures Symbols(['*', '-']) == [Sym('*'), Sym('-')]
  {
    assert ['*', '-'][1..] == ['-'];
    assert Symbols(['-']) == [Sym('-')];
  }

  lemma AdditionEnd3(q: string)
    requires |q| == 5 && q[3] == '2' && q[4] == '3'
    ensures NumeralEnd(q, 3) == 5
  {
    assert DigitsEnd(q, 5) == 5;
    assert DigitsEnd(q, 4) == 5;
    assert DigitsEnd(q, 3) == 5;
  }

  lemma AdditionLexeme3(q: string)
    requires |q| == 5 && q[2] == '+' && q[3] == '2' && q[4] == '3'
    ensures LexFrom(q, 3, []) == [Num(23.0)] + LexFrom(q, 5, [])
  {
    AdditionEnd3(q);
    assert DecimalValue(q[3..5]) == 23.0 by {
      assert q[3..5] == "23";
      Literal23();
    }
    NumberLexeme(q, 3, 5, 23.0);
  }

  lemma AdditionLexeme2(q: string)
    requires |q| == 5 && q[1] == '8' && q[2] == '+' && q[3] == '2'
    ensures LexFrom(q, 2, []) == [Sym('+')] + LexFrom(q, 3, [])
  {
    SymbolLexeme(q, 2, '+');
  }

  lemma AdditionEnd0(q: string)
    requires |q| == 5 && q[0] == '5' && q[1] == '8' && q[2] == '+'
    ensures NumeralEnd(q, 0) == 2
  {
    assert DigitsEnd(q, 2) == 2;
    assert DigitsEnd(q, 1) == 2;
    assert DigitsEnd(q, 0) == 2;
  }

  lemma AdditionLexeme0(q: string)
    requires |q| == 5 && q[0] == '5' && q[1] == '8' && q[2] == '+'
    ensures LexFrom(q, 0, []) == [Num(58.0)] + LexFrom(q, 2, [])
  {
    AdditionEnd0(q);
    assert DecimalValue(q[0..2]) == 58.0 by {
      assert q[0..2] == "58";
      Literal58();
    }
    NumberLexeme(q, 0, 2, 58.0);
  }

  lemma AdditionLex(q: string, ts: seq<Token>)
    requires |q| == 5 && q[0] == '5' && q[1] == '8' && q[2] == '+' && q[3] == '2' && q[4] == '3'
    requires |ts| == 3 && ts[0] == Num(58.0) && ts[1] == Sym('+') && ts[2] == Num(23.0)
    ensures Lex(q) == ts
  {
    LexFromEnd(q, []);
    assert ts[3..] == [];
    assert LexFrom(q, 3, []) == ts[2..] by {
      AdditionLexeme3(q);
      DropCons(ts, 2);
    }
    assert LexFrom(q, 2, []) == ts[1..] by {
      AdditionLexeme2(q);
      DropCons(ts, 1);
    }
    assert LexFrom(q, 0, []) == ts[0..] by {
      AdditionLexeme0(q);
      DropCons(ts, 0);
    }
    assert ts[0..] == ts;
  }

  lemma AdditionStep0(out: seq<Token>)
    ensures Step(Shunting([], out), Num(58.0)) == Ok(Shunting([], out + [Num(58.0)]))
  {
  }

  lemma AdditionShunt0(ts: seq<Token>, p: seq<Token>)
    requires |ts| == 3 && ts[0] == Num(58.0)
    requires |p| == 3 && p[0] == Num(58.0)
    ensures ShuntFrom(Shunting([], p[..0]), ts[0..]) == ShuntFrom(Shunting([], p[..1]), ts[1..])
  {
    AdditionStep0(p[..0]);
    TakeExtend(p, 0, 1);
    assert p[0..1] == [Num(58.0)];
    ShuntAt(Shunting([], p[..0]), ts, 0);
  }

  lemma AdditionStep1(out: seq<Token>)
    ensures Step(Shunting([], out), Sym('+')) == Ok(Shunting(['+'], out))
  {
    PopEmpty(1);
    assert Symbols([]) == [];
    assert [] + ['+'] == ['+'];
    assert out + [] == out;
  }

  lemma AdditionShunt1(ts: seq<Token>, p: seq<Token>)
    requires |ts| == 3 && ts[1] == Sym('+')
    requires |p| == 3
    ensures ShuntFrom(Shunting([], p[..1]), ts[1..]) == ShuntFrom(Shunting(['+'], p[..1]), ts[2..])
  {
    AdditionStep1(p[..1]);
    ShuntAt(Shunting([], p[..1]), ts, 1);
  }

  lemma AdditionStep2(out: seq<Token>)
    ensures Step(Shunting(['+'], out), Num(23.0)) == Ok(Shunting(['+'], out + [Num(23.0)]))
  {
  }

  lemma AdditionShunt2(ts: seq<Token>, p: seq<Token>)
    requires |ts| == 3 && ts[2] == Num(23.0)
    requires |p| == 3 && p[1] == Num(23.0)
    ensures ShuntFrom(Shunting(['+'], p[..1]), ts[2..]) == ShuntFrom(Shunting(['+'], p[..2]), ts[3..])
  {
    AdditionStep2(p[..1]);
    TakeExtend(p, 1, 2);
    assert p[1..2] == [Num(23.0)];
    ShuntAt(Shunting(['+'], p[..1]), ts, 2);
  }

  lemma AdditionFlush(ts: seq<Token>, p: seq<Token>)
    requires |ts| == 3
    requires |p| == 3 && p[2] == Sym('+')
    ensures ShuntFrom(Shunting(['+'], p[..2]), ts[3..]) == Ok(p)
  {
    assert ts[3..] == [];
    assert Reverse(['+']) == ['+'];
    assert Symbols(['+']) == [Sym('+')];
    TakeExtend(p, 2, 3);
    assert p[2..3] == [Sym('+')];
    assert p[..3] == p;
  }

  lemma AdditionPostfix(ts: seq<Token>, p: seq<Token>)
    requires |ts| == 3 && ts[0] == Num(58.0) && ts[1] == Sym('+') && ts[2] == Num(23.0)
    requires |p| == 3 && p[0] == Num(58.0) && p[1] == Num(23.0) && p[2] == Sym('+')
    ensures Postfix(ts) == Ok(p)
  {
    assert p[..0] == [];
    assert ts[0..] == ts;
    AdditionShunt0(ts, p);
    AdditionShunt1(ts, p);
    AdditionShunt2(ts, p);
    AdditionFlush(ts, p);
  }

  lemma AdditionCalc0()
    ensures EvalStep([], Num(58.0)) == Continue([Float(58.0)])
  {
  }

  lemma AdditionCalc1()
    ensures EvalStep([Float(58.0)], Num(23.0)) == Continue([Float(58.0), Float(23.0)])
  {
  }

  lemma AdditionCalc2()
    ensures EvalStep([Float(58.0), Float(23.0)], Sym('+')) == Continue([Float(81.0)])
  {
  }

  lemma AdditionEval(p: seq<Token>)
    requires |p| == 3 && p[0] == Num(58.0) && p[1] == Num(23.0) && p[2] == Sym('+')
    ensures Eval(p) == Ok(Float(81.0))
  {
    assert p[0..] == p;
    assert Fold([], p[0..]) == Fold([Float(58.0)], p[1..]) by {
      AdditionCalc0();
      FoldAt([], p, 0);
    }
    assert Fold([Float(58.0)], p[1..]) == Fold([Float(58.0), Float(23.0)], p[2..]) by {
      AdditionCalc1();
      FoldAt([Float(58.0)], p, 1);
    }
    assert Fold([Float(58.0), Float(23.0)], p[2..]) == Fold([Float(81.0)], p[3..]) by {
      AdditionCalc2();
      FoldAt([Float(58.0), Float(23.0)], p, 2);
    }
    assert p[3..] == [];
  }

  lemma AdditionAllowed(q: string)
    requires |q| == 5 && q[0] == '5' && q[1] == '8' && q[2] == '+' && q[3] == '2' && q[4] == '3'
    ensures forall k :: 0 <= k < |q| ==> !IsSpace(q[k]) && IsAllowed(q[k])
  {
    forall k | 0 <= k < |q| ensures !IsSpace(q[k]) && IsAllowed(q[k]) {
      assert k == 0 || k == 1 || k == 2 || k == 3 || k == 4;
    }
  }

  lemma AdditionRun(q: string, ts: seq<Token>, p: seq<Token>)
    requires |q| == 5 && q[0] == '5' && q[1] == '8' && q[2] == '+' && q[3] == '2' && q[4] == '3'
    requires |ts| == 3 && ts[0] == Num(58.0) && ts[1] == Sym('+') && ts[2] == Num(23.0)
    requires |p| == 3 && p[0] == Num(58.0) && p[1] == Num(23.0) && p[2] == Sym('+')
    ensures Postfix(Lex(q)) == Ok(p)
    ensures Query(q) == Ok(Float(81.0))
  {
    AdditionLex(q, ts);
    AdditionPostfix(ts, p);
    AdditionEval(p);
    AdditionAllowed(q);
    QueryOfAllowed(q);
  }

  /** `58+23` is 81. */
  lemma Addition()
    ensures Postfix(Lex("58+23")) == Ok([Num(58.0), Num(23.0), Sym('+')])
    ensures Query("58+23") == Ok(Float(81.0))
  {
    AdditionRun("58+23", [Num(58.0), Sym('+'), Num(23.0)], [Num(58.0), Num(23.0), Sym('+')]);
  }

  lemma GroupingLexeme15(q: string)
    requires |q| == 16 && q[14] == '1' && q[15] == ')'
    ensures LexFrom(q, 15, []) == [Sym(')')] + LexFrom(q, 16, [])
  {
    SymbolLexeme(q, 15, ')');
  }

  lemma GroupingEnd14(q: string)
    requires |q| == 16 && q[14] == '1' && q[15] == ')'
    ensures NumeralEnd(q, 14) == 15
  {
    assert DigitsEnd(q, 15) == 15;
    assert DigitsEnd(q, 14) == 15;
  }

  lemma GroupingLexeme14(q: string)
    requires |q| == 16 && q[13] == '+' && q[14] == '1' && q[15] == ')'
    ensures LexFrom(q, 14, []) == [Num(1.0)] + LexFrom(q, 15, [])
  {
    GroupingEnd14(q);
    assert DecimalValue(q[14..15]) == 1.0 by {
      assert q[14..15] == "1";
      Literal1();
    }
    NumberLexeme(q, 14, 15, 1.0);
  }

  lemma GroupingLexeme13(q: string)
    requires |q| == 16 && q[12] == '2' && q[13] == '+' && q[14] == '1'
    ensures LexFrom(q, 13, []) == [Sym('+')] + LexFrom(q, 14, [])
  {
    SymbolLexeme(q, 13, '+');
  }

  lemma GroupingEnd12(q: string)
    requires |q| == 16 && q[12] == '2' && q[13] == '+'
    ensures NumeralEnd(q, 12) == 13
  {
    assert DigitsEnd(q, 13) == 13;
    assert DigitsEnd(q, 12) == 13;
  }

  lemma GroupingLexeme12(q: string)
    requires |q| == 16 && q[11] == '(' && q[12] == '2' && q[13] == '+'
    ensures LexFrom(q, 12, []) == [Num(2.0)] + LexFrom(q, 13, [])
  {
    GroupingEnd12(q);
    assert DecimalValue(q[12..13]) == 2.0 by {
      assert q[12..13] == "2";
      Literal2();
    }
    NumberLexeme(q, 12, 13, 2.0);
  }

  lemma GroupingLexeme11(q: string)
    requires |q| == 16 && q[10] == '/' && q[11] == '(' && q[12] == '2'
    ensures LexFrom(q, 11, []) == [Sym('(')] + LexFrom(q, 12, [])
  {
    SymbolLexeme(q, 11, '(');
  }

  lemma GroupingLexeme10(q: string)
    requires |q| == 16 && q[9] == '3' && q[10] == '/' && q[11] == '('
    ensures LexFrom(q, 10, []) == [Sym('/')] + LexFrom(q, 11, [])
  {
    SymbolLexeme(q, 10, '/');
  }

  lemma GroupingEnd9(q: string)
    requires |q| == 16 && q[9] == '3' && q[10] == '/'
    ensures NumeralEnd(q, 9) == 10
  {
    assert DigitsEnd(q, 10) == 10;
    assert DigitsEnd(q, 9) == 10;
  }

  lemma GroupingLexeme9(q: string)
    requires |q| == 16 && q[8] == '+' && q[9] == '3' && q[10] == '/'
    ensures LexFrom(q, 9, []) == [Num(3.0)] + LexFrom(q, 10, [])
  {
    GroupingEnd9(q);
    assert DecimalValue(q[9..10]) == 3.0 by {
      assert q[9..10] == "3";
      Literal3();
    }
    NumberLexeme(q, 9, 10, 3.0);
  }

  lemma GroupingLexeme8(q: string)
    requires |q| == 16 && q[7] == '5' && q[8] == '+' && q[9] == '3'
    ensures LexFrom(q, 8, []) == [Sym('+')] + LexFrom(q, 9, [])
  {
    SymbolLexeme(q, 8, '+');
  }

  lemma GroupingEnd7(q: string)
    requires |q| == 16 && q[7] == '5' && q[8] == '+'
    ensures NumeralEnd(q, 7) == 8
  {
    assert DigitsEnd(q, 8) == 8;
    assert DigitsEnd(q, 7) == 8;
  }

  lemma GroupingLexeme7(q: string)
    requires |q| == 16 && q[6] == '*' && q[7] == '5' && q[8] == '+'
    ensures LexFrom(q, 7, []) == [Num(5.0)] + LexFrom(q, 8, [])
  {
    GroupingEnd7(q);
    assert DecimalValue(q[7..8]) == 5.0 by {
      assert q[7..8] == "5";
      Literal5();
    }
    NumberLexeme(q, 7, 8, 5.0);
  }

  lemma GroupingLexeme6(q: string)
    requires |q| == 16 && q[5] == ')' && q[6] == '*' && q[7] == '5'
    ensures LexFrom(q, 6, []) == [Sym('*')] + LexFrom(q, 7, [])
  {
    SymbolLexeme(q, 6, '*');
  }

  lemma GroupingLexeme5(q: string)
    requires |q| == 16 && q[4] == '6' && q[5] == ')' && q[6] == '*'
    ensures LexFrom(q, 5, []) == [Sym(')')] + LexFrom(q, 6, [])
  {
    SymbolLexeme(q, 5, ')');
  }

  lemma GroupingEnd4(q: string)
    requires |q| == 16 && q[4] == '6' && q[5] == ')'
    ensures NumeralEnd(q, 4) == 5
  {
    assert DigitsEnd(q, 5) == 5;
    assert DigitsEnd(q, 4) == 5;
  }

  lemma GroupingLexeme4(q: string)
    requires |q| == 16 && q[3] == '+' && q[4] == '6' && q[5] == ')'
    ensures LexFrom(q, 4, []) == [Num(6.0)] + LexFrom(q, 5, [])
  {
    GroupingEnd4(q);
    assert DecimalValue(q[4..5]) == 6.0 by {
      assert q[4..5] == "6";
      Literal6();
    }
    NumberLexeme(q, 4, 5, 6.0);
  }

  lemma GroupingLexeme3(q: string)
    requires |q| == 16 && q[2] == '5' && q[3] == '+' && q[4] == '6'
    ensures LexFrom(q, 3, []) == [Sym('+')] + LexFrom(q, 4, [])
  {
    SymbolLexeme(q, 3, '+');
  }

  lemma GroupingEnd1(q: string)
    requires |q| == 16 && q[1] == '4' && q[2] == '5' && q[3] == '+'
    ensures NumeralEnd(q, 1) == 3
  {
    assert DigitsEnd(q, 3) == 3;
    assert DigitsEnd(q, 2) == 3;
    assert DigitsEnd(q, 1) == 3;
  }

  lemma GroupingLexeme1(q: string)
    requires |q| == 16 && q[0] == '(' && q[1] == '4' && q[2] == '5' && q[3] == '+'
    ensures LexFrom(q, 1, []) == [Num(45.0)] + LexFrom(q, 3, [])
  {
    GroupingEnd1(q);
    assert DecimalValue(q[1..3]) == 45.0 by {
      assert q[1..3] == "45";
      Literal45();
    }
    NumberLexeme(q, 1, 3, 45.0);
  }

  lemma GroupingLexeme0(q: string)
    requires |q| == 16 && q[0] == '(' && q[1] == '4'
    ensures LexFrom(q, 0, []) == [Sym('(')] + LexFrom(q, 1, [])
  {
    SymbolLexeme(q, 0, '(');
  }

  lemma GroupingLex(q: string, ts: seq<Token>)
    requires |q| == 16 && q[0] == '(' && q[1] == '4' && q[2] == '5' && q[3] == '+' && q[4] == '6' && q[5] == ')' && q[6] == '*' && q[7] == '5' && q[8] == '+' && q[9] == '3' && q[10] == '/' && q[11] == '(' && q[12] == '2' && q[13] == '+' && q[14] == '1' && q[15] == ')'
    requires |ts| == 15 && ts[0] == Sym('(') && ts[1] == Num(45.0) && ts[2] == Sym('+') && ts[3] == Num(6.0) && ts[4] == Sym(')') && ts[5] == Sym('*') && ts[6] == Num(5.0) && ts[7] == Sym('+') && ts[8] == Num(3.0) && ts[9] == Sym('/') && ts[10] == Sym('(') && ts[11] == Num(2.0) && ts[12] == Sym('+') && ts[13] == Num(1.0) && ts[14] == Sym(')')
    ensures Lex(q) == ts
  {
    LexFromEnd(q, []);
    assert ts[15..] == [];
    assert LexFrom(q, 15, []) == ts[14..] by {
      GroupingLexeme15(q);
      DropCons(ts, 14);
    }
    assert LexFrom(q, 14, []) == ts[13..] by {
      GroupingLexeme14(q);
      DropCons(ts, 13);
    }
    assert LexFrom(q, 13, []) == ts[12..] by {
      GroupingLexeme13(q);
      DropCons(ts, 12);
    }
    assert LexFrom(q, 12, []) == ts[11..] by {
      GroupingLexeme12(q);
      DropCons(ts, 11);
    }
    assert LexFrom(q, 11, []) == ts[10..] by {
      GroupingLexeme11(q);
      DropCons(ts, 10);
    }
    assert LexFrom(q, 10, []) == ts[9..] by {
      GroupingLexeme10(q);
      DropCons(ts, 9);
    }
    assert LexFrom(q, 9, []) == ts[8..] by {
      GroupingLexeme9(q);
      DropCons(ts, 8);
    }
    assert LexFrom(q, 8, []) == ts[7..] by {
      GroupingLexeme8(q);
      DropCons(ts, 7);
    }
    assert LexFrom(q, 7, []) == ts[6..] by {
      GroupingLexeme7(q);
      DropCons(ts, 6);
    }
    assert LexFrom(q, 6, []) == ts[5..] by {
      GroupingLexeme6(q);
      DropCons(ts, 5);
    }
    assert LexFrom(q, 5, []) == ts[4..] by {
      GroupingLexeme5(q);
      DropCons(ts, 4);
    }
    assert LexFrom(q, 4, []) == ts[3..] by {
      GroupingLexeme4(q);
      DropCons(ts, 3);
    }
    assert LexFrom(q, 3, []) == ts[2..] by {
      GroupingLexeme3(q);
      DropCons(ts, 2);
    }
    assert LexFrom(q, 1, []) == ts[1..] by {
      GroupingLexeme1(q);
      DropCons(ts, 1);
    }
    assert LexFrom(q, 0, []) == ts[0..] by {
      GroupingLexeme0(q);
      DropCons(ts, 0);
    }
    assert ts[0..] == ts;
  }

  lemma GroupingStep0(out: seq<Token>)
    ensures Step(Shunting([], out), Sym('(')) == Ok(Shunting(['('], out))
  {
    assert [] + ['('] == ['('];
    assert out + [] == out;
  }

  lemma GroupingShunt0(ts: seq<Token>, p: seq<Token>)
    requires |ts| == 15 && ts[0] == Sym('(')
    requires |p| == 11
    ensures ShuntFrom(Shunting([], p[..0]), ts[0..]) == ShuntFrom(Shunting(['('], p[..0]), ts[1..])
  {
    GroupingStep0(p[..0]);
    ShuntAt(Shunting([], p[..0]), ts, 0);
  }

  lemma GroupingStep1(out: seq<Token>)
    ensures Step(Shunting(['('], out), Num(45.0)) == Ok(Shunting(['('], out + [Num(45.0)]))
  {
  }

  lemma GroupingShunt1(ts: seq<Token>, p: seq<Token>)
    requires |ts| == 15 && ts[1] == Num(45.0)
    requires |p| == 11 && p[0] == Num(45.0)
    ensures ShuntFrom(Shunting(['('], p[..0]), ts[1..]) == ShuntFrom(Shunting(['('], p[..1]), ts[2..])
  {
    GroupingStep1(p[..0]);
    TakeExtend(p, 0, 1);
    assert p[0..1] == [Num(45.0)];
    ShuntAt(Shunting(['('], p[..0]), ts, 1);
  }

  lemma GroupingStep2(out: seq<Token>)
    ensures Step(Shunting(['('], out), Sym('+')) == Ok(Shunting(['(', '+'], out))
  {
    PopOpenStays(1);
    assert Symbols([]) == [];
    assert ['('] + ['+'] == ['(', '+'];
    assert out + [] == out;
  }

  lemma GroupingShunt2(ts: seq<Token>, p: seq<Token>)
    requires |ts| == 15 && ts[2] == Sym('+')
    requires |p| == 11
    ensures ShuntFrom(Shunting(['('], p[..1]), ts[2..]) == ShuntFrom(Shunting(['(', '+'], p[..1]), ts[3..])
  {
    GroupingStep2(p[..1]);
    ShuntAt(Shunting(['('], p[..1]), ts, 2);
  }

  lemma GroupingStep3(out: seq<Token>)
    ensures Step(Shunting(['(', '+'], out), Num(6.0)) == Ok(Shunting(['(', '+'], out + [Num(6.0)]))
  {
  }

  lemma GroupingShunt3(ts: seq<Token>, p: seq<Token>)
    requires |ts| == 15 && ts[3] == Num(6.0)
    requires |p| == 11 && p[1] == Num(6.0)
    ensures ShuntFrom(Shunting(['(', '+'], p[..1]), ts[3..]) == ShuntFrom(Shunting(['(', '+'], p[..2]), ts[4..])
  {
    GroupingStep3(p[..1]);
    TakeExtend(p, 1, 2);
    assert p[1..2] == [Num(6.0)];
    ShuntAt(Shunting(['(', '+'], p[..1]), ts, 3);
  }

  lemma GroupingStep4(out: seq<Token>)
    ensures Step(Shunting(['(', '+'], out), Sym(')')) == Ok(Shunting([], out + [Sym('+')]))
  {
    PopOpenUnder('+');
    assert Symbols(['+']) == [Sym('+')];
  }

  lemma GroupingShunt4(ts: seq<Token>, p: seq<Token>)
    requires |ts| == 15 && ts[4] == Sym(')')
    requires |p| == 11 && p[2] == Sym('+')
    ensures ShuntFrom(Shunting(['(', '+'], p[..2]), ts[4..]) == ShuntFrom(Shunting([], p[..3]), ts[5..])
  {
    GroupingStep4(p[..2]);
    TakeExtend(p, 2, 3);
    assert p[2..3] == [Sym('+')];
    ShuntAt(Shunting(['(', '+'], p[..2]), ts, 4);
  }

  lemma GroupingStep5(out: seq<Token>)
    ensures Step(Shunting([], out), Sym('*')) == Ok(Shunting(['*'], out))
  {
    PopEmpty(2);
    assert Symbols([]) == [];
    assert [] + ['*'] == ['*'];
    assert out + [] == out;
  }

  lemma GroupingShunt5(ts: seq<Token>, p: seq<Token>)
    requires |ts| == 15 && ts[5] == Sym('*')
    requires |p| == 11
    ensures ShuntFrom(Shunting([], p[..3]), ts[5..]) == ShuntFrom(Shunting(['*'], p[..3]), ts[6..])
  {
    GroupingStep5(p[..3]);
    ShuntAt(Shunting([], p[..3]), ts, 5);
  }

  lemma GroupingStep6(out: seq<Token>)
    ensures Step(Shunting(['*'], out), Num(5.0)) == Ok(Shunting(['*'], out + [Num(5.0)]))
  {
  }

  lemma GroupingShunt6(ts: seq<Token>, p: seq<Token>)
    requires |ts| == 15 && ts[6] == Num(5.0)
    requires |p| == 11 && p[3] == Num(5.0)
    ensures ShuntFrom(Shunting(['*'], p[..3]), ts[6..]) == ShuntFrom(Shunting(['*'], p[..4]), ts[7..])
  {
    GroupingStep6(p[..3]);
    TakeExtend(p, 3, 4);
    assert p[3..4] == [Num(5.0)];
    ShuntAt(Shunting(['*'], p[..3]), ts, 6);
  }

  lemma GroupingStep7(out: seq<Token>)
    ensures Step(Shunting(['*'], out), Sym('+')) == Ok(Shunting(['+'], out + [Sym('*')]))
  {
    PopAlone('*');
    assert Symbols(['*']) == [Sym('*')];
    assert [] + ['+'] == ['+'];
  }

  lemma GroupingShunt7(ts: seq<Token>, p: seq<Token>)
    requires |ts| == 15 && ts[7] == Sym('+')
    requires |p| == 11 && p[4] == Sym('*')
    ensures ShuntFrom(Shunting(['*'], p[..4]), ts[7..]) == ShuntFrom(Shunting(['+'], p[..5]), ts[8..])
  {
    GroupingStep7(p[..4]);
    TakeExtend(p, 4, 5);
    assert p[4..5] == [Sym('*')];
    ShuntAt(Shunting(['*'], p[..4]), ts, 7);
  }

  lemma GroupingStep8(out: seq<Token>)
    ensures Step(Shunting(['+'], out), Num(3.0)) == Ok(Shunting(['+'], out + [Num(3.0)]))
  {
  }

  lemma GroupingShunt8(ts: seq<Token>, p: seq<Token>)
    requires |ts| == 15 && ts[8] == Num(3.0)
    requires |p| == 11 && p[5] == Num(3.0)
    ensures ShuntFrom(Shunting(['+'], p[..5]), ts[8..]) == ShuntFrom(Shunting(['+'], p[..6]), ts[9..])
  {
    GroupingStep8(p[..5]);
    TakeExtend(p, 5, 6);
    assert p[5..6] == [Num(3.0)];
    ShuntAt(Shunting(['+'], p[..5]), ts, 8);
  }

  lemma GroupingStep9(out: seq<Token>)
    ensures Step(Shunting(['+'], out), Sym('/')) == Ok(Shunting(['+', '/'], out))
  {
    PopPlus2();
    assert Symbols([]) == [];
    assert ['+'] + ['/'] == ['+', '/'];
    assert out + [] == out;
  }

  lemma GroupingShunt9(ts: seq<Token>, p: seq<Token>)
    requires |ts| == 15 && ts[9] == Sym('/')
    requires |p| == 11
    ensures ShuntFrom(Shunting(['+'], p[..6]), ts[9..]) == ShuntFrom(Shunting(['+', '/'], p[..6]), ts[10..])
  {
    GroupingStep9(p[..6]);
    ShuntAt(Shunting(['+'], p[..6]), ts, 9);
  }

  lemma GroupingStep10(out: seq<Token>)
    ensures Step(Shunting(['+', '/'], out), Sym('(')) == Ok(Shunting(['+', '/', '('], out))
  {
    assert ['+', '/'] + ['('] == ['+', '/', '('];
    assert out + [] == out;
  }

  lemma GroupingShunt10(ts: seq<Token>, p: seq<Token>)
    requires |ts| == 15 && ts[10] == Sym('(')
    requires |p| == 11
    ensures ShuntFrom(Shunting(['+', '/'], p[..6]), ts[10..]) == ShuntFrom(Shunting(['+', '/', '('], p[..6]), ts[11..])
  {
    GroupingStep10(p[..6]);
    ShuntAt(Shunting(['+', '/'], p[..6]), ts, 10);
  }

  lemma GroupingStep11(out: seq<Token>)
    ensures Step(Shunting(['+', '/', '('], out), Num(2.0)) == Ok(Shunting(['+', '/', '('], out + [Num(2.0)]))
  {
  }

  lemma GroupingShunt11(ts: seq<Token>, p: seq<Token>)
    requires |ts| == 15 && ts[11] == Num(2.0)
    requires |p| == 11 && p[6] == Num(2.0)
    ensures ShuntFrom(Shunting(['+', '/', '('], p[..6]), ts[11..]) == ShuntFrom(Shunting(['+', '/', '('], p[..7]), ts[12..])
  {
    GroupingStep11(p[..6]);
    TakeExtend(p, 6, 7);
    assert p[6..7] == [Num(2.0)];
    ShuntAt(Shunting(['+', '/', '('], p[..6]), ts, 11);
  }

  lemma GroupingStep12(out: seq<Token>)
    ensures Step(Shunting(['+', '/', '('], out), Sym('+')) == Ok(Shunting(['+', '/', '(', '+'], out))
  {
    PopPlusDivOpen1();
    assert Symbols([]) == [];
    assert ['+', '/', '('] + ['+'] == ['+', '/', '(', '+'];
    assert out + [] == out;
  }

  lemma GroupingShunt12(ts: seq<Token>, p: seq<Token>)
    requires |ts| == 15 && ts[12] == Sym('+')
    requires |p| == 11
    ensures ShuntFrom(Shunting(['+', '/', '('], p[..7]), ts[12..]) == ShuntFrom(Shunting(['+', '/', '(', '+'], p[..7]), ts[13..])
  {
    GroupingStep12(p[..7]);
    ShuntAt(Shunting(['+', '/', '('], p[..7]), ts, 12);
  }

  lemma GroupingStep13(out: seq<Token>)
    ensures Step(Shunting(['+', '/', '(', '+'], out), Num(1.0)) == Ok(Shunting(['+', '/', '(', '+'], out + [Num(1.0)]))
  {
  }

  lemma GroupingShunt13(ts: seq<Token>, p: seq<Token>)
    requires |ts| == 15 && ts[13] == Num(1.0)
    requires |p| == 11 && p[7] == Num(1.0)
    ensures ShuntFrom(Shunting(['+', '/', '(', '+'], p[..7]), ts[13..]) == ShuntFrom(Shunting(['+', '/', '(', '+'], p[..8]), ts[14..])
  {
    GroupingStep13(p[..7]);
    TakeExtend(p, 7, 8);
    assert p[7..8] == [Num(1.0)];
    ShuntAt(Shunting(['+', '/', '(', '+'], p[..7]), ts, 13);
  }

  lemma GroupingStep14(out: seq<Token>)
    ensures Step(Shunting(['+', '/', '(', '+'], out), Sym(')')) == Ok(Shunting(['+', '/'], out + [Sym('+')]))
  {
    PopPlusDivOpenPlus();
    assert Symbols(['+']) == [Sym('+')];
  }

  lemma GroupingShunt14(ts: seq<Token>, p: seq<Token>)
    requires |ts| == 15 && ts[14] == Sym(')')
    requires |p| == 11 && p[8] == Sym('+')
    ensures ShuntFrom(Shunting(['+', '/', '(', '+'], p[..8]), ts[14..]) == ShuntFrom(Shunting(['+', '/'], p[..9]), ts[15..])
  {
    GroupingStep14(p[..8]);
    TakeExtend(p, 8, 9);
    assert p[8..9] == [Sym('+')];
    ShuntAt(Shunting(['+', '/', '(', '+'], p[..8]), ts, 14);
  }

  lemma GroupingFlush(ts: seq<Token>, p: seq<Token>)
    requires |ts| == 15
    requires |p| == 11 && p[9] == Sym('/') && p[10] == Sym('+')
    ensures ShuntFrom(Shunting(['+', '/'], p[..9]), ts[15..]) == Ok(p)
  {
    assert ts[15..] == [];
    assert Reverse(['/']) == ['/'];
    assert Reverse(['+', '/']) == ['/', '+'] by {
      assert ['+', '/'][1..] == ['/'];
    }
    assert Symbols(['/', '+']) == [Sym('/'), Sym('+')];
    TakeExtend(p, 9, 11);
    assert p[9..11] == [Sym('/'), Sym('+')];
    assert p[..11] == p;
  }

  lemma GroupingPostfix(ts: seq<Token>, p: seq<Token>)
    requires |ts| == 15 && ts[0] == Sym('(') && ts[1] == Num(45.0) && ts[2] == Sym('+') && ts[3] == Num(6.0) && ts[4] == Sym(')') && ts[5] == Sym('*') && ts[6] == Num(5.0) && ts[7] == Sym('+') && ts[8] == Num(3.0) && ts[9] == Sym('/') && ts[10] == Sym('(') && ts[11] == Num(2.0) && ts[12] == Sym('+') && ts[13] == Num(1.0) && ts[14] == Sym(')')
    requires |p| == 11 && p[0] == Num(45.0) && p[1] == Num(6.0) && p[2] == Sym('+') && p[3] == Num(5.0) && p[4] == Sym('*') && p[5] == Num(3.0) && p[6] == Num(2.0) && p[7] == Num(1.0) && p[8] == Sym('+') && p[9] == Sym('/') && p[10] == Sym('+')
    ensures Postfix(ts) == Ok(p)
  {
    assert p[..0] == [];
    assert ts[0..] == ts;
    GroupingShunt0(ts, p);
    GroupingShunt1(ts, p);
    GroupingShunt2(ts, p);
    GroupingShunt3(ts, p);
    GroupingShunt4(ts, p);
    GroupingShunt5(ts, p);
    GroupingShunt6(ts, p);
    GroupingShunt7(ts, p);
    GroupingShunt8(ts, p);
    GroupingShunt9(ts, p);
    GroupingShunt10(ts, p);
    GroupingShunt11(ts, p);
    GroupingShunt12(ts, p);
    GroupingShunt13(ts, p);
    GroupingShunt14(ts, p);
    GroupingFlush(ts, p);
  }

  lemma GroupingCalc0()
    ensures EvalStep([], Num(45.0)) == Continue([Float(45.0)])
  {
  }

  lemma GroupingCalc1()
    ensures EvalStep([Float(45.0)], Num(6.0)) == Continue([Float(45.0), Float(6.0)])
  {
  }

  lemma GroupingCalc2()
    ensures EvalStep([Float(45.0), Float(6.0)], Sym('+')) == Continue([Float(51.0)])
  {
  }

  lemma GroupingCalc3()
    ensures EvalStep([Float(51.0)], Num(5.0)) == Continue([Float(51.0), Float(5.0)])
  {
  }

  lemma GroupingCalc4()
    ensures EvalStep([Float(51.0), Float(5.0)], Sym('*')) == Continue([Float(255.0)])
  {
  }

  lemma GroupingCalc5()
    ensures EvalStep([Float(255.0)], Num(3.0)) == Continue([Float(255.0), Float(3.0)])
  {
  }

  lemma GroupingCalc6()
    ensures EvalStep([Float(255.0), Float(3.0)], Num(2.0)) == Continue([Float(255.0), Float(3.0), Float(2.0)])
  {
  }

  lemma GroupingCalc7()
    ensures EvalStep([Float(255.0), Float(3.0), Float(2.0)], Num(1.0)) == Continue([Float(255.0), Float(3.0), Float(2.0), Float(1.0)])
  {
  }

  lemma GroupingCalc8()
    ensures EvalStep([Float(255.0), Float(3.0), Float(2.0), Float(1.0)], Sym('+')) == Continue([Float(255.0), Float(3.0), Float(3.0)])
  {
  }

  lemma GroupingCalc9()
    ensures EvalStep([Float(255.0), Float(3.0), Float(3.0)], Sym('/')) == Continue([Float(255.0), Float(1.0)])
  {
  }

  lemma GroupingCalc10()
    ensures EvalStep([Float(255.0), Float(1.0)], Sym('+')) == Continue([Float(256.0)])
  {
  }

  lemma GroupingEval(p: seq<Token>)
    requires |p| == 11 && p[0] == Num(45.0) && p[1] == Num(6.0) && p[2] == Sym('+') && p[3] == Num(5.0) && p[4] == Sym('*') && p[5] == Num(3.0) && p[6] == Num(2.0) && p[7] == Num(1.0) && p[8] == Sym('+') && p[9] == Sym('/') && p[10] == Sym('+')
    ensures Eval(p) == Ok(Float(256.0))
  {
    assert p[0..] == p;
    assert Fold([], p[0..]) == Fold([Float(45.0)], p[1..]) by {
      GroupingCalc0();
      FoldAt([], p, 0);
    }
    assert Fold([Float(45.0)], p[1..]) == Fold([Float(45.0), Float(6.0)], p[2..]) by {
      GroupingCalc1();
      FoldAt([Float(45.0)], p, 1);
    }
    assert Fold([Float(45.0), Float(6.0)], p[2..]) == Fold([Float(51.0)], p[3..]) by {
      GroupingCalc2();
      FoldAt([Float(45.0), Float(6.0)], p, 2);
    }
    assert Fold([Float(51.0)], p[3..]) == Fold([Float(51.0), Float(5.0)], p[4..]) by {
      GroupingCalc3();
      FoldAt([Float(51.0)], p, 3);
    }
    assert Fold([Float(51.0), Float(5.0)], p[4..]) == Fold([Float(255.0)], p[5..]) by {
      GroupingCalc4();
      FoldAt([Float(51.0), Float(5.0)], p, 4);
    }
    assert Fold([Float(255.0)], p[5..]) == Fold([Float(255.0), Float(3.0)], p[6..]) by {
      GroupingCalc5();
      FoldAt([Float(255.0)], p, 5);
    }
    assert Fold([Float(255.0), Float(3.0)], p[6..]) == Fold([Float(255.0), Float(3.0), Float(2.0)], p[7..]) by {
      GroupingCalc6();
      FoldAt([Float(255.0), Float(3.0)], p, 6);
    }
    assert Fold([Float(255.0), Float(3.0), Float(2.0)], p[7..]) == Fold([Float(255.0), Float(3.0), Float(2.0), Float(1.0)], p[8..]) by {
      GroupingCalc7();
      FoldAt([Float(255.0), Float(3.0), Float(2.0)], p, 7);
    }
    assert Fold([Float(255.0), Float(3.0), Float(2.0), Float(1.0)], p[8..]) == Fold([Float(255.0), Float(3.0), Float(3.0)], p[9..]) by {
      GroupingCalc8();
      FoldAt([Float(255.0), Float(3.0), Float(2.0), Float(1.0)], p, 8);
    }
    assert Fold([Float(255.0), Float(3.0), Float(3.0)], p[9..]) == Fold([Float(255.0), Float(1.0)], p[10..]) by {
      GroupingCalc9();
      FoldAt([Float(255.0), Float(3.0), Float(3.0)], p, 9);
    }
    assert Fold([Float(255.0), Float(1.0)], p[10..]) == Fold([Float(256.0)], p[11..]) by {
      GroupingCalc10();
      FoldAt([Float(255.0), Float(1.0)], p, 10);
    }
    assert p[11..] == [];
  }

  lemma GroupingAllowed(q: string)
    requires |q| == 16 && q[0] == '(' && q[1] == '4' && q[2] == '5' && q[3] == '+' && q[4] == '6' && q[5] == ')' && q[6] == '*' && q[7] == '5' && q[8] == '+' && q[9] == '3' && q[10] == '/' && q[11] == '(' && q[12] == '2' && q[13] == '+' && q[14] == '1' && q[15] == ')'
    ensures forall k :: 0 <= k < |q| ==> !IsSpace(q[k]) && IsAllowed(q[k])
  {
    forall k | 0 <= k < |q| ensures !IsSpace(q[k]) && IsAllowed(q[k]) {
      assert k == 0 || k == 1 || k == 2 || k == 3 || k == 4 || k == 5 || k == 6 || k == 7 || k == 8 || k == 9 || k == 10 || k == 11 || k == 12 || k == 13 || k == 14 || k == 15;
    }
  }

  lemma GroupingRun(q: string, ts: seq<Token>, p: seq<Token>)
    requires |q| == 16 && q[0] == '(' && q[1] == '4' && q[2] == '5' && q[3] == '+' && q[4] == '6' && q[5] == ')' && q[6] == '*' && q[7] == '5' && q[8] == '+' && q[9] == '3' && q[10] == '/' && q[11] == '(' && q[12] == '2' && q[13] == '+' && q[14] == '1' && q[15] == ')'
    requires |ts| == 15 && ts[0] == Sym('(') && ts[1] == Num(45.0) && ts[2] == Sym('+') && ts[3] == Num(6.0) && ts[4] == Sym(')') && ts[5] == Sym('*') && ts[6] == Num(5.0) && ts[7] == Sym('+') && ts[8] == Num(3.0) && ts[9] == Sym('/') && ts[10] == Sym('(') && ts[11] == Num(2.0) && ts[12] == Sym('+') && ts[13] == Num(1.0) && ts[14] == Sym(')')
    requires |p| == 11 && p[0] == Num(45.0) && p[1] == Num(6.0) && p[2] == Sym('+') && p[3] == Num(5.0) && p[4] == Sym('*') && p[5] == Num(3.0) && p[6] == Num(2.0) && p[7] == Num(1.0) && p[8] == Sym('+') && p[9] == Sym('/') && p[10] == Sym('+')
    ensures Postfix(Lex(q)) == Ok(p)
    ensures Query(q) == Ok(Float(256.0))
  {
    GroupingLex(q, ts);
    GroupingPostfix(ts, p);
    GroupingEval(p);
    GroupingAllowed(q);
    QueryOfAllowed(q);
  }

  /** `(45+6)*5+3/(2+1)` is 256. */
  lemma Grouping()
    ensures Postfix(Lex("(45+6)*5+3/(2+1)")) == Ok([Num(45.0), Num(6.0), Sym('+'), Num(5.0), Sym('*'), Num(3.0), Num(2.0), Num(1.0), Sym('+'), Sym('/'), Sym('+')])
    ensures Query("(45+6)*5+3/(2+1)") == Ok(Float(256.0))
  {
    GroupingRun("(45+6)*5+3/(2+1)", [Sym('('), Num(45.0), Sym('+'), Num(6.0), Sym(')'), Sym('*'), Num(5.0), Sym('+'), Num(3.0), Sym('/'), Sym('('), Num(2.0), Sym('+'), Num(1.0), Sym(')')], [Num(45.0), Num(6.0), Sym('+'), Num(5.0), Sym('*'), Num(3.0), Num(2.0), Num(1.0), Sym('+'), Sym('/'), Sym('+')]);
  }

  lemma MixedEnd18(q: string)
    requires |q| == 19 && q[18] == '3'
    ensures NumeralEnd(q, 18) == 19
  {
    assert DigitsEnd(q, 19) == 19;
    assert DigitsEnd(q, 18) == 19;
  }

  lemma MixedLexeme18(q: string)
    requires |q| == 19 && q[17] == '^' && q[18] == '3'
    ensures LexFrom(q, 18, []) == [Num(3.0)] + LexFrom(q, 19, [])
  {
    MixedEnd18(q);
    assert DecimalValue(q[18..19]) == 3.0 by {
      assert q[18..19] == "3";
      Literal3();
    }
    NumberLexeme(q, 18, 19, 3.0);
  }

  lemma MixedLexeme17(q: string)
    requires |q| == 19 && q[16] == '3' && q[17] == '^' && q[18] == '3'
    ensures LexFrom(q, 17, []) == [Sym('^')] + LexFrom(q, 18, [])
  {
    SymbolLexeme(q, 17, '^');
  }

  lemma MixedEnd16(q: string)
    requires |q| == 19 && q[16] == '3' && q[17] == '^'
    ensures NumeralEnd(q, 16) == 17
  {
    assert DigitsEnd(q, 17) == 17;
    assert DigitsEnd(q, 16) == 17;
  }

  lemma MixedLexeme16(q: string)
    requires |q| == 19 && q[15] == '+' && q[16] == '3' && q[17] == '^'
    ensures LexFrom(q, 16, []) == [Num(3.0)] + LexFrom(q, 17, [])
  {
    MixedEnd16(q);
    assert DecimalValue(q[16..17]) == 3.0 by {
      assert q[16..17] == "3";
      Literal3();
    }
    NumberLexeme(q, 16, 17, 3.0);
  }

  lemma MixedLexeme15(q: string)
    requires |q| == 19 && q[14] == '4' && q[15] == '+' && q[16] == '3'
    ensures LexFrom(q, 15, []) == [Sym('+')] + LexFrom(q, 16, [])
  {
    SymbolLexeme(q, 15, '+');
  }

  lemma MixedEnd14(q: string)
    requires |q| == 19 && q[14] == '4' && q[15] == '+'
    ensures NumeralEnd(q, 14) == 15
  {
    assert DigitsEnd(q, 15) == 15;
    assert DigitsEnd(q, 14) == 15;
  }

  lemma MixedLexeme14(q: string)
    requires |q| == 19 && q[13] == '*' && q[14] == '4' && q[15] == '+'
    ensures LexFrom(q, 14, []) == [Num(4.0)] + LexFrom(q, 15, [])
  {
    MixedEnd14(q);
    assert DecimalValue(q[14..15]) == 4.0 by {
      assert q[14..15] == "4";
      Literal4();
    }
    NumberLexeme(q, 14, 15, 4.0);
  }

  lemma MixedLexeme13(q: string)
    requires |q| == 19 && q[12] == ')' && q[13] == '*' && q[14] == '4'
    ensures LexFrom(q, 13, []) == [Sym('*')] + LexFrom(q, 14, [])
  {
    SymbolLexeme(q, 13, '*');
  }

  lemma MixedLexeme12(q: string)
    requires |q| == 19 && q[11] == '3' && q[12] == ')' && q[13] == '*'
    ensures LexFrom(q, 12, []) == [Sym(')')] + LexFrom(q, 13, [])
  {
    SymbolLexeme(q, 12, ')');
  }

  lemma MixedEnd11(q: string)
    requires |q| == 19 && q[11] == '3' && q[12] == ')'
    ensures NumeralEnd(q, 11) == 12
  {
    assert DigitsEnd(q, 12) == 12;
    assert DigitsEnd(q, 11) == 12;
  }

  lemma MixedLexeme11(q: string)
    requires |q| == 19 && q[10] == '+' && q[11] == '3' && q[12] == ')'
    ensures LexFrom(q, 11, []) == [Num(3.0)] + LexFrom(q, 12, [])
  {
    MixedEnd11(q);
    assert DecimalValue(q[11..12]) == 3.0 by {
      assert q[11..12] == "3";
      Literal3();
    }
    NumberLexeme(q, 11, 12, 3.0);
  }

  lemma MixedLexeme10(q: string)
    requires |q| == 19 && q[9] == '4' && q[10] == '+' && q[11] == '3'
    ensures LexFrom(q, 10, []) == [Sym('+')] + LexFrom(q, 11, [])
  {
    SymbolLexeme(q, 10, '+');
  }

  lemma MixedEnd9(q: string)
    requires |q| == 19 && q[9] == '4' && q[10] == '+'
    ensures NumeralEnd(q, 9) == 10
  {
    assert DigitsEnd(q, 10) == 10;
    assert DigitsEnd(q, 9) == 10;
  }

  lemma MixedLexeme9(q: string)
    requires |q| == 19 && q[8] == '(' && q[9] == '4' && q[10] == '+'
    ensures LexFrom(q, 9, []) == [Num(4.0)] + LexFrom(q, 10, [])
  {
    MixedEnd9(q);
    assert DecimalValue(q[9..10]) == 4.0 by {
      assert q[9..10] == "4";
      Literal4();
    }
    NumberLexeme(q, 9, 10, 4.0);
  }

  lemma MixedLexeme8(q: string)
    requires |q| == 19 && q[7] == '-' && q[8] == '(' && q[9] == '4'
    ensures LexFrom(q, 8, []) == [Sym('(')] + LexFrom(q, 9, [])
  {
    SymbolLexeme(q, 8, '(');
  }

  lemma MixedLexeme7(q: string)
    requires |q| == 19 && q[6] == ')' && q[7] == '-' && q[8] == '('
    ensures LexFrom(q, 7, []) == [Sym('-')] + LexFrom(q, 8, [])
  {
    SymbolLexeme(q, 7, '-');
  }

  lemma MixedLexeme6(q: string)
    requires |q| == 19 && q[5] == '4' && q[6] == ')' && q[7] == '-'
    ensures LexFrom(q, 6, []) == [Sym(')')] + LexFrom(q, 7, [])
  {
    SymbolLexeme(q, 6, ')');
  }

  lemma MixedEnd5(q: string)
    requires |q| == 19 && q[5] == '4' && q[6] == ')'
    ensures NumeralEnd(q, 5) == 6
  {
    assert DigitsEnd(q, 6) == 6;
    assert DigitsEnd(q, 5) == 6;
  }

  lemma MixedLexeme5(q: string)
    requires |q| == 19 && q[4] == '*' && q[5] == '4' && q[6] == ')'
    ensures LexFrom(q, 5, []) == [Num(4.0)] + LexFrom(q, 6, [])
  {
    MixedEnd5(q);
    assert DecimalValue(q[5..6]) == 4.0 by {
      assert q[5..6] == "4";
      Literal4();
    }
    NumberLexeme(q, 5, 6, 4.0);
  }

  lemma MixedLexeme4(q: string)
    requires |q| == 19 && q[3] == '6' && q[4] == '*' && q[5] == '4'
    ensures LexFrom(q, 4, []) == [Sym('*')] + LexFrom(q, 5, [])
  {
    SymbolLexeme(q, 4, '*');
  }

  lemma MixedEnd1(q: string)
    requires |q| == 19 && q[1] == '4' && q[2] == '5' && q[3] == '6' && q[4] == '*'
    ensures NumeralEnd(q, 1) == 4
  {
    assert DigitsEnd(q, 4) == 4;
    assert DigitsEnd(q, 3) == 4;
    assert DigitsEnd(q, 2) == 4;
    assert DigitsEnd(q, 1) == 4;
  }

  lemma MixedLexeme1(q: string)
    requires |q| == 19 && q[0] == '(' && q[1] == '4' && q[2] == '5' && q[3] == '6' && q[4] == '*'
    ensures LexFrom(q, 1, []) == [Num(456.0)] + LexFrom(q, 4, [])
  {
    MixedEnd1(q);
    assert DecimalValue(q[1..4]) == 456.0 by {
      assert q[1..4] == "456";
      Literal456();
    }
    NumberLexeme(q, 1, 4, 456.0);
  }

  lemma MixedLexeme0(q: string)
    requires |q| == 19 && q[0] == '(' && q[1] == '4'
    ensures LexFrom(q, 0, []) == [Sym('(')] + LexFrom(q, 1, [])
  {
    SymbolLexeme(q, 0, '(');
  }

  lemma MixedLex(q: string, ts: seq<Token>)
    requires |q| == 19 && q[0] == '(' && q[1] == '4' && q[2] == '5' && q[3] == '6' && q[4] == '*' && q[5] == '4' && q[6] == ')' && q[7] == '-' && q[8] == '(' && q[9] == '4' && q[10] == '+' && q[11] == '3' && q[12] == ')' && q[13] == '*' && q[14] == '4' && q[15] == '+' && q[16] == '3' && q[17] == '^' && q[18] == '3'
    requires |ts| == 17 && ts[0] == Sym('(') && ts[1] == Num(456.0) && ts[2] == Sym('*') && ts[3] == Num(4.0) && ts[4] == Sym(')') && ts[5] == Sym('-') && ts[6] == Sym('(') && ts[7] == Num(4.0) && ts[8] == Sym('+') && ts[9] == Num(3.0) && ts[10] == Sym(')') && ts[11] == Sym('*') && ts[12] == Num(4.0) && ts[13] == Sym('+') && ts[14] == Num(3.0) && ts[15] == Sym('^') && ts[16] == Num(3.0)
    ensures Lex(q) == ts
  {
    LexFromEnd(q, []);
    assert ts[17..] == [];
    assert LexFrom(q, 18, []) == ts[16..] by {
      MixedLexeme18(q);
      DropCons(ts, 16);
    }
    assert LexFrom(q, 17, []) == ts[15..] by {
      MixedLexeme17(q);
      DropCons(ts, 15);
    }
    assert LexFrom(q, 16, []) == ts[14..] by {
      MixedLexeme16(q);
      DropCons(ts, 14);
    }
    assert LexFrom(q, 15, []) == ts[13..] by {
      MixedLexeme15(q);
      DropCons(ts, 13);
    }
    assert LexFrom(q, 14, []) == ts[12..] by {
      MixedLexeme14(q);
      DropCons(ts, 12);
    }
    assert LexFrom(q, 13, []) == ts[11..] by {
      MixedLexeme13(q);
      DropCons(ts, 11);
    }
    assert LexFrom(q, 12, []) == ts[10..] by {
      MixedLexeme12(q);
      DropCons(ts, 10);
    }
    assert LexFrom(q, 11, []) == ts[9..] by {
      MixedLexeme11(q);
      DropCons(ts, 9);
    }
    assert LexFrom(q, 10, []) == ts[8..] by {
      MixedLexeme10(q);
      DropCons(ts, 8);
    }
    assert LexFrom(q, 9, []) == ts[7..] by {
      MixedLexeme9(q);
      DropCons(ts, 7);
    }
    assert LexFrom(q, 8, []) == ts[6..] by {
      MixedLexeme8(q);
      DropCons(ts, 6);
    }
    assert LexFrom(q, 7, []) == ts[5..] by {
      MixedLexeme7(q);
      DropCons(ts, 5);
    }
    assert LexFrom(q, 6, []) == ts[4..] by {
      MixedLexeme6(q);
      DropCons(ts, 4);
    }
    assert LexFrom(q, 5, []) == ts[3..] by {
      MixedLexeme5(q);
      DropCons(ts, 3);
    }
    assert LexFrom(q, 4, []) == ts[2..] by {
      MixedLexeme4(q);
      DropCons(ts, 2);
    }
    assert LexFrom(q, 1, []) == ts[1..] by {
      MixedLexeme1(q);
      DropCons(ts, 1);
    }
    assert LexFrom(q, 0, []) == ts[0..] by {
      MixedLexeme0(q);
      DropCons(ts, 0);
    }
    assert ts[0..] == ts;
  }

  lemma MixedStep0(out: seq<Token>)
    ensures Step(Shunting([], out), Sym('(')) == Ok(Shunting(['('], out))
  {
    assert [] + ['('] == ['('];
    assert out + [] == out;
  }

  lemma MixedShunt0(ts: seq<Token>, p: seq<Token>)
    requires |ts| == 17 && ts[0] == Sym('(')
    requires |p| == 13
    ensures ShuntFrom(Shunting([], p[..0]), ts[0..]) == ShuntFrom(Shunting(['('], p[..0]), ts[1..])
  {
    MixedStep0(p[..0]);
    ShuntAt(Shunting([], p[..0]), ts, 0);
  }

  lemma MixedStep1(out: seq<Token>)
    ensures Step(Shunting(['('], out), Num(456.0)) == Ok(Shunting(['('], out + [Num(456.0)]))
  {
  }

  lemma MixedShunt1(ts: seq<Token>, p: seq<Token>)
    requires |ts| == 17 && ts[1] == Num(456.0)
    requires |p| == 13 && p[0] == Num(456.0)
    ensures ShuntFrom(Shunting(['('], p[..0]), ts[1..]) == ShuntFrom(Shunting(['('], p[..1]), ts[2..])
  {
    MixedStep1(p[..0]);
    TakeExtend(p, 0, 1);
    assert p[0..1] == [Num(456.0)];
    ShuntAt(Shunting(['('], p[..0]), ts, 1);
  }

  lemma MixedStep2(out: seq<Token>)
    ensures Step(Shunting(['('], out), Sym('*')) == Ok(Shunting(['(', '*'], out))
  {
    PopOpenStays(2);
    assert Symbols([]) == [];
    assert ['('] + ['*'] == ['(', '*'];
    assert out + [] == out;
  }

  lemma MixedShunt2(ts: seq<Token>, p: seq<Token>)
    requires |ts| == 17 && ts[2] == Sym('*')
    requires |p| == 13
    ensures ShuntFrom(Shunting(['('], p[..1]), ts[2..]) == ShuntFrom(Shunting(['(', '*'], p[..1]), ts[3..])
  {
    MixedStep2(p[..1]);
    ShuntAt(Shunting(['('], p[..1]), ts, 2);
  }

  lemma MixedStep3(out: seq<Token>)
    ensures Step(Shunting(['(', '*'], out), Num(4.0)) == Ok(Shunting(['(', '*'], out + [Num(4.0)]))
  {
  }

  lemma MixedShunt3(ts: seq<Token>, p: seq<Token>)
    requires |ts| == 17 && ts[3] == Num(4.0)
    requires |p| == 13 && p[1] == Num(4.0)
    ensures ShuntFrom(Shunting(['(', '*'], p[..1]), ts[3..]) == ShuntFrom(Shunting(['(', '*'], p[..2]), ts[4..])
  {
    MixedStep3(p[..1]);
    TakeExtend(p, 1, 2);
    assert p[1..2] == [Num(4.0)];
    ShuntAt(Shunting(['(', '*'], p[..1]), ts, 3);
  }

  lemma MixedStep4(out: seq<Token>)
    ensures Step(Shunting(['(', '*'], out), Sym(')')) == Ok(Shunting([], out + [Sym('*')]))
  {
    PopOpenUnder('*');
    assert Symbols(['*']) == [Sym('*')];
  }

  lemma MixedShunt4(ts: seq<Token>, p: seq<Token>)
    requires |ts| == 17 && ts[4] == Sym(')')
    requires |p| == 13 && p[2] == Sym('*')
    ensures ShuntFrom(Shunting(['(', '*'], p[..2]), ts[4..]) == ShuntFrom(Shunting([], p[..3]), ts[5..])
  {
    MixedStep4(p[..2]);
    TakeExtend(p, 2, 3);
    assert p[2..3] == [Sym('*')];
    ShuntAt(Shunting(['(', '*'], p[..2]), ts, 4);
  }

  lemma MixedStep5(out: seq<Token>)
    ensures Step(Shunting([], out), Sym('-')) == Ok(Shunting(['-'], out))
  {
    PopEmpty(1);
    assert Symbols([]) == [];
    assert [] + ['-'] == ['-'];
    assert out + [] == out;
  }

  lemma MixedShunt5(ts: seq<Token>, p: seq<Token>)
    requires |ts| == 17 && ts[5] == Sym('-')
    requires |p| == 13
    ensures ShuntFrom(Shunting([], p[..3]), ts[5..]) == ShuntFrom(Shunting(['-'], p[..3]), ts[6..])
  {
    MixedStep5(p[..3]);
    ShuntAt(Shunting([], p[..3]), ts, 5);
  }

  lemma MixedStep6(out: seq<Token>)
    ensures Step(Shunting(['-'], out), Sym('(')) == Ok(Shunting(['-', '('], out))
  {
    assert ['-'] + ['('] == ['-', '('];
    assert out + [] == out;
  }

  lemma MixedShunt6(ts: seq<Token>, p: seq<Token>)
    requires |ts| == 17 && ts[6] == Sym('(')
    requires |p| == 13
    ensures ShuntFrom(Shunting(['-'], p[..3]), ts[6..]) == ShuntFrom(Shunting(['-', '('], p[..3]), ts[7..])
  {
    MixedStep6(p[..3]);
    ShuntAt(Shunting(['-'], p[..3]), ts, 6);
  }

  lemma MixedStep7(out: seq<Token>)
    ensures Step(Shunting(['-', '('], out), Num(4.0)) == Ok(Shunting(['-', '('], out + [Num(4.0)]))
  {
  }

  lemma MixedShunt7(ts: seq<Token>, p: seq<Token>)
    requires |ts| == 17 && ts[7] == Num(4.0)
    requires |p| == 13 && p[3] == Num(4.0)
    ensures ShuntFrom(Shunting(['-', '('], p[..3]), ts[7..]) == ShuntFrom(Shunting(['-', '('], p[..4]), ts[8..])
  {
    MixedStep7(p[..3]);
    TakeExtend(p, 3, 4);
    assert p[3..4] == [Num(4.0)];
    ShuntAt(Shunting(['-', '('], p[..3]), ts, 7);
  }

  lemma MixedStep8(out: seq<Token>)
    ensures Step(Shunting(['-', '('], out), Sym('+')) == Ok(Shunting(['-', '(', '+'], out))
  {
    PopMinusOpen1();
    assert Symbols([]) == [];
    assert ['-', '('] + ['+'] == ['-', '(', '+'];
    assert out + [] == out;
  }

  lemma MixedShunt8(ts: seq<Token>, p: seq<Token>)
    requires |ts| == 17 && ts[8] == Sym('+')
    requires |p| == 13
    ensures ShuntFrom(Shunting(['-', '('], p[..4]), ts[8..]) == ShuntFrom(Shunting(['-', '(', '+'], p[..4]), ts[9..])
  {
    MixedStep8(p[..4]);
    ShuntAt(Shunting(['-', '('], p[..4]), ts, 8);
  }

  lemma MixedStep9(out: seq<Token>)
    ensures Step(Shunting(['-', '(', '+'], out), Num(3.0)) == Ok(Shunting(['-', '(', '+'], out + [Num(3.0)]))
  {
  }

  lemma MixedShunt9(ts: seq<Token>, p: seq<Token>)
    requires |ts| == 17 && ts[9] == Num(3.0)
    requires |p| == 13 && p[4] == Num(3.0)
    ensures ShuntFrom(Shunting(['-', '(', '+'], p[..4]), ts[9..]) == ShuntFrom(Shunting(['-', '(', '+'], p[..5]), ts[10..])
  {
    MixedStep9(p[..4]);
    TakeExtend(p, 4, 5);
    assert p[4..5] == [Num(3.0)];
    ShuntAt(Shunting(['-', '(', '+'], p[..4]), ts, 9);
  }

  lemma MixedStep10(out: seq<Token>)
    ensures Step(Shunting(['-', '(', '+'], out), Sym(')')) == Ok(Shunting(['-'], out + [Sym('+')]))
  {
    PopOneOverOpen('-', '+');
    assert Symbols(['+']) == [Sym('+')];
  }

  lemma MixedShunt10(ts: seq<Token>, p: seq<Token>)
    requires |ts| == 17 && ts[10] == Sym(')')
    requires |p| == 13 && p[5] == Sym('+')
    ensures ShuntFrom(Shunting(['-', '(', '+'], p[..5]), ts[10..]) == ShuntFrom(Shunting(['-'], p[..6]), ts[11..])
  {
    MixedStep10(p[..5]);
    TakeExtend(p, 5, 6);
    assert p[5..6] == [Sym('+')];
    ShuntAt(Shunting(['-', '(', '+'], p[..5]), ts, 10);
  }

  lemma MixedStep11(out: seq<Token>)
    ensures Step(Shunting(['-'], out), Sym('*')) == Ok(Shunting(['-', '*'], out))
  {
    PopMinus2();
    assert Symbols([]) == [];
    assert ['-'] + ['*'] == ['-', '*'];
    assert out + [] == out;
  }

  lemma MixedShunt11(ts: seq<Token>, p: seq<Token>)
    requires |ts| == 17 && ts[11] == Sym('*')
    requires |p| == 13
    ensures ShuntFrom(Shunting(['-'], p[..6]), ts[11..]) == ShuntFrom(Shunting(['-', '*'], p[..6]), ts[12..])
  {
    MixedStep11(p[..6]);
    ShuntAt(Shunting(['-'], p[..6]), ts, 11);
  }

  lemma MixedStep12(out: seq<Token>)
    ensures Step(Shunting(['-', '*'], out), Num(4.0)) == Ok(Shunting(['-', '*'], out + [Num(4.0)]))
  {
  }

  lemma MixedShunt12(ts: seq<Token>, p: seq<Token>)
    requires |ts| == 17 && ts[12] == Num(4.0)
    requires |p| == 13 && p[6] == Num(4.0)
    ensures ShuntFrom(Shunting(['-', '*'], p[..6]), ts[12..]) == ShuntFrom(Shunting(['-', '*'], p[..7]), ts[13..])
  {
    MixedStep12(p[..6]);
    TakeExtend(p, 6, 7);
    assert p[6..7] == [Num(4.0)];
    ShuntAt(Shunting(['-', '*'], p[..6]), ts, 12);
  }

  lemma MixedStep13(out: seq<Token>)
    ensures Step(Shunting(['-', '*'], out), Sym('+')) == Ok(Shunting(['+'], out + [Sym('*'), Sym('-')]))
  {
    PopMinusTimes1();
    SymbolsTimesMinus();
    assert [] + ['+'] == ['+'];
  }

  lemma MixedPops13(p: seq<Token>)
    requires |p| == 13 && p[7] == Sym('*') && p[8] == Sym('-')
    ensures Step(Shunting(['-', '*'], p[..7]), Sym('+')) == Ok(Shunting(['+'], p[..9]))
  {
    MixedStep13(p[..7]);
    TakeExtend(p, 7, 9);
    assert p[7..9] == [Sym('*'), Sym('-')];
  }

  lemma MixedShunt13(ts: seq<Token>, p: seq<Token>)
    requires |ts| == 17 && ts[13] == Sym('+')
    requires |p| == 13 && p[7] == Sym('*') && p[8] == Sym('-')
    ensures ShuntFrom(Shunting(['-', '*'], p[..7]), ts[13..]) == ShuntFrom(Shunting(['+'], p[..9]), ts[14..])
  {
    MixedPops13(p);
    ShuntAt(Shunting(['-', '*'], p[..7]), ts, 13);
  }

  lemma MixedStep14(out: seq<Token>)
    ensures Step(Shunting(['+'], out), Num(3.0)) == Ok(Shunting(['+'], out + [Num(3.0)]))
  {
  }

  lemma MixedShunt14(ts: seq<Token>, p: seq<Token>)
    requires |ts| == 17 && ts[14] == Num(3.0)
    requires |p| == 13 && p[9] == Num(3.0)
    ensures ShuntFrom(Shunting(['+'], p[..9]), ts[14..]) == ShuntFrom(Shunting(['+'], p[..10]), ts[15..])
  {
    MixedStep14(p[..9]);
    TakeExtend(p, 9, 10);
    assert p[9..10] == [Num(3.0)];
    ShuntAt(Shunting(['+'], p[..9]), ts, 14);
  }

  lemma MixedStep15(out: seq<Token>)
    ensures Step(Shunting(['+'], out), Sym('^')) == Ok(Shunting(['+', '^'], out))
  {
    PopPlus3();
    assert Symbols([]) == [];
    assert ['+'] + ['^'] == ['+', '^'];
    assert out + [] == out;
  }

  lemma MixedShunt15(ts: seq<Token>, p: seq<Token>)
    requires |ts| == 17 && ts[15] == Sym('^')
    requires |p| == 13
    ensures ShuntFrom(Shunting(['+'], p[..10]), ts[15..]) == ShuntFrom(Shunting(['+', '^'], p[..10]), ts[16..])
  {
    MixedStep15(p[..10]);
    ShuntAt(Shunting(['+'], p[..10]), ts, 15);
  }

  lemma MixedStep16(out: seq<Token>)
    ensures Step(Shunting(['+', '^'], out), Num(3.0)) == Ok(Shunting(['+', '^'], out + [Num(3.0)]))
  {
  }

  lemma MixedShunt16(ts: seq<Token>, p: seq<Token>)
    requires |ts| == 17 && ts[16] == Num(3.0)
    requires |p| == 13 && p[10] == Num(3.0)
    ensures ShuntFrom(Shunting(['+', '^'], p[..10]), ts[16..]) == ShuntFrom(Shunting(['+', '^'], p[..11]), ts[17..])
  {
    MixedStep16(p[..10]);
    TakeExtend(p, 10, 11);
    assert p[10..11] == [Num(3.0)];
    ShuntAt(Shunting(['+', '^'], p[..10]), ts, 16);
  }

  lemma MixedFlush(ts: seq<Token>, p: seq<Token>)
    requires |ts| == 17
    requires |p| == 13 && p[11] == Sym('^') && p[12] == Sym('+')
    ensures ShuntFrom(Shunting(['+', '^'], p[..11]), ts[17..]) == Ok(p)
  {
    assert ts[17..] == [];
    assert Reverse(['^']) == ['^'];
    assert Reverse(['+', '^']) == ['^', '+'] by {
      assert ['+', '^'][1..] == ['^'];
    }
    assert Symbols(['^', '+']) == [Sym('^'), Sym('+')];
    TakeExtend(p, 11, 13);
    assert p[11..13] == [Sym('^'), Sym('+')];
    assert p[..13] == p;
  }

  lemma MixedPostfix(ts: seq<Token>, p: seq<Token>)
    requires |ts| == 17 && ts[0] == Sym('(') && ts[1] == Num(456.0) && ts[2] == Sym('*') && ts[3] == Num(4.0) && ts[4] == Sym(')') && ts[5] == Sym('-') && ts[6] == Sym('(') && ts[7] == Num(4.0) && ts[8] == Sym('+') && ts[9] == Num(3.0) && ts[10] == Sym(')') && ts[11] == Sym('*') && ts[12] == Num(4.0) && ts[13] == Sym('+') && ts[14] == Num(3.0) && ts[15] == Sym('^') && ts[16] == Num(3.0)
    requires |p| == 13 && p[0] == Num(456.0) && p[1] == Num(4.0) && p[2] == Sym('*') && p[3] == Num(4.0) && p[4] == Num(3.0) && p[5] == Sym('+') && p[6] == Num(4.0) && p[7] == Sym('*') && p[8] == Sym('-') && p[9] == Num(3.0) && p[10] == Num(3.0) && p[11] == Sym('^') && p[12] == Sym('+')
    ensures Postfix(ts) == Ok(p)
  {
    assert p[..0] == [];
    assert ts[0..] == ts;
    MixedShunt0(ts, p);
    MixedShunt1(ts, p);
    MixedShunt2(ts, p);
    MixedShunt3(ts, p);
    MixedShunt4(ts, p);
    MixedShunt5(ts, p);
    MixedShunt6(ts, p);
    MixedShunt7(ts, p);
    MixedShunt8(ts, p);
    MixedShunt9(ts, p);
    MixedShunt10(ts, p);
    MixedShunt11(ts, p);
    MixedShunt12(ts, p);
    MixedShunt13(ts, p);
    MixedShunt14(ts, p);
    MixedShunt15(ts, p);
    MixedShunt16(ts, p);
    MixedFlush(ts, p);
  }

  lemma MixedCalc0()
    ensures EvalStep([], Num(456.0)) == Continue([Float(456.0)])
  {
  }

  lemma MixedCalc1()
    ensures EvalStep([Float(456.0)], Num(4.0)) == Continue([Float(456.0), Float(4.0)])
  {
  }

  lemma MixedCalc2()
    ensures EvalStep([Float(456.0), Float(4.0)], Sym('*')) == Continue([Float(1824.0)])
  {
  }

  lemma MixedCalc3()
    ensures EvalStep([Float(1824.0)], Num(4.0)) == Continue([Float(1824.0), Float(4.0)])
  {
  }

  lemma MixedCalc4()
    ensures EvalStep([Float(1824.0), Float(4.0)], Num(3.0)) == Continue([Float(1824.0), Float(4.0), Float(3.0)])
  {
  }

  lemma MixedCalc5()
    ensures EvalStep([Float(1824.0), Float(4.0), Float(3.0)], Sym('+')) == Continue([Float(1824.0), Float(7.0)])
  {
  }

  lemma MixedCalc6()
    ensures EvalStep([Float(1824.0), Float(7.0)], Num(4.0)) == Continue([Float(1824.0), Float(7.0), Float(4.0)])
  {
  }

  lemma MixedCalc7()
    ensures EvalStep([Float(1824.0), Float(7.0), Float(4.0)], Sym('*')) == Continue([Float(1824.0), Float(28.0)])
  {
  }

  lemma MixedCalc8()
    ensures EvalStep([Float(1824.0), Float(28.0)], Sym('-')) == Continue([Float(1796.0)])
  {
  }

  lemma MixedCalc9()
    ensures EvalStep([Float(1796.0)], Num(3.0)) == Continue([Float(1796.0), Float(3.0)])
  {
  }

  lemma MixedCalc10()
    ensures EvalStep([Float(1796.0), Float(3.0)], Num(3.0)) == Continue([Float(1796.0), Float(3.0), Float(3.0)])
  {
  }

  lemma MixedCalc11()
    ensures EvalStep([Float(1796.0), Float(3.0), Float(3.0)], Sym('^')) == Continue([Float(1796.0), Float(27.0)])
  {
    assert (3.0).Floor == 3;
    assert RealPow(3.0, 1) == 3.0;
    assert RealPow(3.0, 2) == 9.0;
    assert RealPow(3.0, 3) == 27.0;
  }

  lemma MixedCalc12()
    ensures EvalStep([Float(1796.0), Float(27.0)], Sym('+')) == Continue([Float(1823.0)])
  {
  }

  lemma MixedEval(p: seq<Token>)
    requires |p| == 13 && p[0] == Num(456.0) && p[1] == Num(4.0) && p[2] == Sym('*') && p[3] == Num(4.0) && p[4] == Num(3.0) && p[5] == Sym('+') && p[6] == Num(4.0) && p[7] == Sym('*') && p[8] == Sym('-') && p[9] == Num(3.0) && p[10] == Num(3.0) && p[11] == Sym('^') && p[12] == Sym('+')
    ensures Eval(p) == Ok(Float(1823.0))
  {
    assert p[0..] == p;
    assert Fold([], p[0..]) == Fold([Float(456.0)], p[1..]) by {
      MixedCalc0();
      FoldAt([], p, 0);
    }
    assert Fold([Float(456.0)], p[1..]) == Fold([Float(456.0), Float(4.0)], p[2..]) by {
      MixedCalc1();
      FoldAt([Float(456.0)], p, 1);
    }
    assert Fold([Float(456.0), Float(4.0)], p[2..]) == Fold([Float(1824.0)], p[3..]) by {
      MixedCalc2();
      FoldAt([Float(456.0), Float(4.0)], p, 2);
    }
    assert Fold([Float(1824.0)], p[3..]) == Fold([Float(1824.0), Float(4.0)], p[4..]) by {
      MixedCalc3();
      FoldAt([Float(1824.0)], p, 3);
    }
    assert Fold([Float(1824.0), Float(4.0)], p[4..]) == Fold([Float(1824.0), Float(4.0), Float(3.0)], p[5..]) by {
      MixedCalc4();
      FoldAt([Float(1824.0), Float(4.0)], p, 4);
    }
    assert Fold([Float(1824.0), Float(4.0), Float(3.0)], p[5..]) == Fold([Float(1824.0), Float(7.0)], p[6..]) by {
      MixedCalc5();
      FoldAt([Float(1824.0), Float(4.0), Float(3.0)], p, 5);
    }
    assert Fold([Float(1824.0), Float(7.0)], p[6..]) == Fold([Float(1824.0), Float(7.0), Float(4.0)], p[7..]) by {
      MixedCalc6();
      FoldAt([Float(1824.0), Float(7.0)], p, 6);
    }
    assert Fold([Float(1824.0), Float(7.0), Float(4.0)], p[7..]) == Fold([Float(1824.0), Float(28.0)], p[8..]) by {
      MixedCalc7();
      FoldAt([Float(1824.0), Float(7.0), Float(4.0)], p, 7);
    }
    assert Fold([Float(1824.0), Float(28.0)], p[8..]) == Fold([Float(1796.0)], p[9..]) by {
      MixedCalc8();
      FoldAt([Float(1824.0), Float(28.0)], p, 8);
    }
    assert Fold([Float(1796.0)], p[9..]) == Fold([Float(1796.0), Float(3.0)], p[10..]) by {
      MixedCalc9();
      FoldAt([Float(1796.0)], p, 9);
    }
    assert Fold([Float(1796.0), Float(3.0)], p[10..]) == Fold([Float(1796.0), Float(3.0), Float(3.0)], p[11..]) by {
      MixedCalc10();
      FoldAt([Float(1796.0), Float(3.0)], p, 10);
    }
    assert Fold([Float(1796.0), Float(3.0), Float(3.0)], p[11..]) == Fold([Float(1796.0), Float(27.0)], p[12..]) by {
      MixedCalc11();
      FoldAt([Float(1796.0), Float(3.0), Float(3.0)], p, 11);
    }
    assert Fold([Float(1796.0), Float(27.0)], p[12..]) == Fold([Float(1823.0)], p[13..]) by {
      MixedCalc12();
      FoldAt([Float(1796.0), Float(27.0)], p, 12);
    }
    assert p[13..] == [];
  }

  lemma MixedAllowed(q: string)
    requires |q| == 19 && q[0] == '(' && q[1] == '4' && q[2] == '5' && q[3] == '6' && q[4] == '*' && q[5] == '4' && q[6] == ')' && q[7] == '-' && q[8] == '(' && q[9] == '4' && q[10] == '+' && q[11] == '3' && q[12] == ')' && q[13] == '*' && q[14] == '4' && q[15] == '+' && q[16] == '3' && q[17] == '^' && q[18] == '3'
    ensures forall k :: 0 <= k < |q| ==> !IsSpace(q[k]) && IsAllowed(q[k])
  {
    forall k | 0 <= k < |q| ensures !IsSpace(q[k]) && IsAllowed(q[k]) {
      assert k == 0 || k == 1 || k == 2 || k == 3 || k == 4 || k == 5 || k == 6 || k == 7 || k == 8 || k == 9 || k == 10 || k == 11 || k == 12 || k == 13 || k == 14 || k == 15 || k == 16 || k == 17 || k == 18;
    }
  }

  lemma MixedRun(q: string, ts: seq<Token>, p: seq<Token>)
    requires |q| == 19 && q[0] == '(' && q[1] == '4' && q[2] == '5' && q[3] == '6' && q[4] == '*' && q[5] == '4' && q[6] == ')' && q[7] == '-' && q[8] == '(' && q[9] == '4' && q[10] == '+' && q[11] == '3' && q[12] == ')' && q[13] == '*' && q[14] == '4' && q[15] == '+' && q[16] == '3' && q[17] == '^' && q[18] == '3'
    requires |ts| == 17 && ts[0] == Sym('(') && ts[1] == Num(456.0) && ts[2] == Sym('*') && ts[3] == Num(4.0) && ts[4] == Sym(')') && ts[5] == Sym('-') && ts[6] == Sym('(') && ts[7] == Num(4.0) && ts[8] == Sym('+') && ts[9] == Num(3.0) && ts[10] == Sym(')') && ts[11] == Sym('*') && ts[12] == Num(4.0) && ts[13] == Sym('+') && ts[14] == Num(3.0) && ts[15] == Sym('^') && ts[16] == Num(3.0)
    requires |p| == 13 && p[0] == Num(456.0) && p[1] == Num(4.0) && p[2] == Sym('*') && p[3] == Num(4.0) && p[4] == Num(3.0) && p[5] == Sym('+') && p[6] == Num(4.0) && p[7] == Sym('*') && p[8] == Sym('-') && p[9] == Num(3.0) && p[10] == Num(3.0) && p[11] == Sym('^') && p[12] == Sym('+')
    ensures Postfix(Lex(q)) == Ok(p)
    ensures Query(q) == Ok(Float(1823.0))
  {
    MixedLex(q, ts);
    MixedPostfix(ts, p);
    MixedEval(p);
    MixedAllowed(q);
    QueryOfAllowed(q);
  }

  /** `(456*4)-(4+3)*4+3^3` is 1823. */
  lemma Mixed()
    ensures Postfix(Lex("(456*4)-(4+3)*4+3^3")) == Ok([Num(456.0), Num(4.0), Sym('*'), Num(4.0), Num(3.0), Sym('+'), Num(4.0), Sym('*'), Sym('-'), Num(3.0), Num(3.0), Sym('^'), Sym('+')])
    ensures Query("(456*4)-(4+3)*4+3^3") == Ok(Float(1823.0))
  {
    MixedRun("(456*4)-(4+3)*4+3^3", [Sym('('), Num(456.0), Sym('*'), Num(4.0), Sym(')'), Sym('-'), Sym('('), Num(4.0), Sym('+'), Num(3.0), Sym(')'), Sym('*'), Num(4.0), Sym('+'), Num(3.0), Sym('^'), Num(3.0)], [Num(456.0), Num(4.0), Sym('*'), Num(4.0), Num(3.0), Sym('+'), Num(4.0), Sym('*'), Sym('-'), Num(3.0), Num(3.0), Sym('^'), Sym('+')]);
  }

  lemma NegativesEnd16(q: string)
    requires |q| == 17 && q[16] == '4'
    ensures NumeralEnd(q, 16) == 17
  {
    assert DigitsEnd(q, 17) == 17;
    assert DigitsEnd(q, 16) == 17;
  }

  lemma NegativesLexeme16(q: string)
    requires |q| == 17 && q[15] == '*' && q[16] == '4'
    ensures LexFrom(q, 16, []) == [Num(4.0)] + LexFrom(q, 17, [])
  {
    NegativesEnd16(q);
    assert DecimalValue(q[16..17]) == 4.0 by {
      assert q[16..17] == "4";
      Literal4();
    }
    NumberLexeme(q, 16, 17, 4.0);
  }

  lemma NegativesLexeme15(q: string)
    requires |q| == 17 && q[14] == ')' && q[15] == '*' && q[16] == '4'
    ensures LexFrom(q, 15, []) == [Sym('*')] + LexFrom(q, 16, [])
  {
    SymbolLexeme(q, 15, '*');
  }

  lemma NegativesLexeme14(q: string)
    requires |q| == 17 && q[13] == '3' && q[14] == ')' && q[15] == '*'
    ensures LexFrom(q, 14, []) == [Sym(')')] + LexFrom(q, 15, [])
  {
    SymbolLexeme(q, 14, ')');
  }

  lemma NegativesEnd13(q: string)
    requires |q| == 17 && q[13] == '3' && q[14] == ')'
    ensures NumeralEnd(q, 13) == 14
  {
    assert DigitsEnd(q, 14) == 14;
    assert DigitsEnd(q, 13) == 14;
  }

  lemma NegativesLexeme13(q: string)
    requires |q| == 17 && q[12] == '+' && q[13] == '3' && q[14] == ')'
    ensures LexFrom(q, 13, []) == [Num(3.0)] + LexFrom(q, 14, [])
  {
    NegativesEnd13(q);
    assert DecimalValue(q[13..14]) == 3.0 by {
      assert q[13..14] == "3";
      Literal3();
    }
    NumberLexeme(q, 13, 14, 3.0);
  }

  lemma NegativesLexeme12(q: string)
    requires |q| == 17 && q[11] == '5' && q[12] == '+' && q[13] == '3'
    ensures LexFrom(q, 12, []) == [Sym('+')] + LexFrom(q, 13, [])
  {
    SymbolLexeme(q, 12, '+');
  }

  lemma NegativesEnd11(q: string)
    requires |q| == 17 && q[11] == '5' && q[12] == '+'
    ensures NumeralEnd(q, 11) == 12
  {
    assert DigitsEnd(q, 12) == 12;
    assert DigitsEnd(q, 11) == 12;
  }

  lemma NegativesLexeme11(q: string)
    requires |q| == 17 && q[10] == '-' && q[11] == '5' && q[12] == '+'
    ensures LexFrom(q, 11, []) == [Num(5.0)] + LexFrom(q, 12, [])
  {
    NegativesEnd11(q);
    assert DecimalValue(q[11..12]) == 5.0 by {
      assert q[11..12] == "5";
      Literal5();
    }
    NumberLexeme(q, 11, 12, 5.0);
  }

  lemma NegativesLexeme10(q: string)
    requires |q| == 17 && q[9] == '(' && q[10] == '-' && q[11] == '5'
    ensures LexFrom(q, 10, []) == [Sym('~')] + LexFrom(q, 11, [])
  {
    SymbolLexeme(q, 10, '~');
  }

  lemma NegativesLexeme9(q: string)
    requires |q| == 17 && q[8] == '-' && q[9] == '(' && q[10] == '-'
    ensures LexFrom(q, 9, []) == [Sym('(')] + LexFrom(q, 10, [])
  {
    SymbolLexeme(q, 9, '(');
  }

  lemma NegativesLexeme8(q: string)
    requires |q| == 17 && q[7] == ')' && q[8] == '-' && q[9] == '('
    ensures LexFrom(q, 8, []) == [Sym('-')] + LexFrom(q, 9, [])
  {
    SymbolLexeme(q, 8, '-');
  }

  lemma NegativesLexeme7(q: string)
    requires |q| == 17 && q[6] == '4' && q[7] == ')' && q[8] == '-'
    ensures LexFrom(q, 7, []) == [Sym(')')] + LexFrom(q, 8, [])
  {
    SymbolLexeme(q, 7, ')');
  }

  lemma NegativesEnd6(q: string)
    requires |q| == 17 && q[6] == '4' && q[7] == ')'
    ensures NumeralEnd(q, 6) == 7
  {
    assert DigitsEnd(q, 7) == 7;
    assert DigitsEnd(q, 6) == 7;
  }

  lemma NegativesLexeme6(q: string)
    requires |q| == 17 && q[5] == '*' && q[6] == '4' && q[7] == ')'
    ensures LexFrom(q, 6, []) == [Num(4.0)] + LexFrom(q, 7, [])
  {
    NegativesEnd6(q);
    assert DecimalValue(q[6..7]) == 4.0 by {
      assert q[6..7] == "4";
      Literal4();
    }
    NumberLexeme(q, 6, 7, 4.0);
  }

  lemma NegativesLexeme5(q: string)
    requires |q| == 17 && q[4] == '6' && q[5] == '*' && q[6] == '4'
    ensures LexFrom(q, 5, []) == [Sym('*')] + LexFrom(q, 6, [])
  {
    SymbolLexeme(q, 5, '*');
  }

  lemma NegativesEnd2(q: string)
    requires |q| == 17 && q[2] == '4' && q[3] == '5' && q[4] == '6' && q[5] == '*'
    ensures NumeralEnd(q, 2) == 5
  {
    assert DigitsEnd(q, 5) == 5;
    assert DigitsEnd(q, 4) == 5;
    assert DigitsEnd(q, 3) == 5;
    assert DigitsEnd(q, 2) == 5;
  }

  lemma NegativesLexeme2(q: string)
    requires |q| == 17 && q[1] == '-' && q[2] == '4' && q[3] == '5' && q[4] == '6' && q[5] == '*'
    ensures LexFrom(q, 2, []) == [Num(456.0)] + LexFrom(q, 5, [])
  {
    NegativesEnd2(q);
    assert DecimalValue(q[2..5]) == 456.0 by {
      assert q[2..5] == "456";
      Literal456();
    }
    NumberLexeme(q, 2, 5, 456.0);
  }

  lemma NegativesLexeme1(q: string)
    requires |q| == 17 && q[0] == '(' && q[1] == '-' && q[2] == '4'
    ensures LexFrom(q, 1, []) == [Sym('-')] + LexFrom(q, 2, [])
  {
    SymbolLexeme(q, 1, '-');
  }

  lemma NegativesLexeme0(q: string)
    requires |q| == 17 && q[0] == '(' && q[1] == '-'
    ensures LexFrom(q, 0, []) == [Sym('(')] + LexFrom(q, 1, [])
  {
    SymbolLexeme(q, 0, '(');
  }

  lemma NegativesLex(q: string, ts: seq<Token>)
    requires |q| == 17 && q[0] == '(' && q[1] == '-' && q[2] == '4' && q[3] == '5' && q[4] == '6' && q[5] == '*' && q[6] == '4' && q[7] == ')' && q[8] == '-' && q[9] == '(' && q[10] == '-' && q[11] == '5' && q[12] == '+' && q[13] == '3' && q[14] == ')' && q[15] == '*' && q[16] == '4'
    requires |ts| == 15 && ts[0] == Sym('(') && ts[1] == Sym('-') && ts[2] == Num(456.0) && ts[3] == Sym('*') && ts[4] == Num(4.0) && ts[5] == Sym(')') && ts[6] == Sym('-') && ts[7] == Sym('(') && ts[8] == Sym('~') && ts[9] == Num(5.0) && ts[10] == Sym('+') && ts[11] == Num(3.0) && ts[12] == Sym(')') && ts[13] == Sym('*') && ts[14] == Num(4.0)
    ensures Lex(q) == ts
  {
    LexFromEnd(q, []);
    assert ts[15..] == [];
    assert LexFrom(q, 16, []) == ts[14..] by {
      NegativesLexeme16(q);
      DropCons(ts, 14);
    }
    assert LexFrom(q, 15, []) == ts[13..] by {
      NegativesLexeme15(q);
      DropCons(ts, 13);
    }
    assert LexFrom(q, 14, []) == ts[12..] by {
      NegativesLexeme14(q);
      DropCons(ts, 12);
    }
    assert LexFrom(q, 13, []) == ts[11..] by {
      NegativesLexeme13(q);
      DropCons(ts, 11);
    }
    assert LexFrom(q, 12, []) == ts[10..] by {
      NegativesLexeme12(q);
      DropCons(ts, 10);
    }
    assert LexFrom(q, 11, []) == ts[9..] by {
      NegativesLexeme11(q);
      DropCons(ts, 9);
    }
    assert LexFrom(q, 10, []) == ts[8..] by {
      NegativesLexeme10(q);
      DropCons(ts, 8);
    }
    assert LexFrom(q, 9, []) == ts[7..] by {
      NegativesLexeme9(q);
      DropCons(ts, 7);
    }
    assert LexFrom(q, 8, []) == ts[6..] by {
      NegativesLexeme8(q);
      DropCons(ts, 6);
    }
    assert LexFrom(q, 7, []) == ts[5..] by {
      NegativesLexeme7(q);
      DropCons(ts, 5);
    }
    assert LexFrom(q, 6, []) == ts[4..] by {
      NegativesLexeme6(q);
      DropCons(ts, 4);
    }
    assert LexFrom(q, 5, []) == ts[3..] by {
      NegativesLexeme5(q);
      DropCons(ts, 3);
    }
    assert LexFrom(q, 2, []) == ts[2..] by {
      NegativesLexeme2(q);
      DropCons(ts, 2);
    }
    assert LexFrom(q, 1, []) == ts[1..] by {
      NegativesLexeme1(q);
      DropCons(ts, 1);
    }
    assert LexFrom(q, 0, []) == ts[0..] by {
      NegativesLexeme0(q);
      DropCons(ts, 0);
    }
    assert ts[0..] == ts;
  }

  lemma NegativesStep0(out: seq<Token>)
    ensures Step(Shunting([], out), Sym('(')) == Ok(Shunting(['('], out))
  {
    assert [] + ['('] == ['('];
    assert out + [] == out;
  }

  lemma NegativesShunt0(ts: seq<Token>, p: seq<Token>)
    requires |ts| == 15 && ts[0] == Sym('(')
    requires |p| == 11
    ensures ShuntFrom(Shunting([], p[..0]), ts[0..]) == ShuntFrom(Shunting(['('], p[..0]), ts[1..])
  {
    NegativesStep0(p[..0]);
    ShuntAt(Shunting([], p[..0]), ts, 0);
  }

  lemma NegativesStep1(out: seq<Token>)
    ensures Step(Shunting(['('], out), Sym('-')) == Ok(Shunting(['(', '-'], out))
  {
    PopOpenStays(1);
    assert Symbols([]) == [];
    assert ['('] + ['-'] == ['(', '-'];
    assert out + [] == out;
  }

  lemma NegativesShunt1(ts: seq<Token>, p: seq<Token>)
    requires |ts| == 15 && ts[1] == Sym('-')
    requires |p| == 11
    ensures ShuntFrom(Shunting(['('], p[..0]), ts[1..]) == ShuntFrom(Shunting(['(', '-'], p[..0]), ts[2..])
  {
    NegativesStep1(p[..0]);
    ShuntAt(Shunting(['('], p[..0]), ts, 1);
  }

  lemma NegativesStep2(out: seq<Token>)
    ensures Step(Shunting(['(', '-'], out), Num(456.0)) == Ok(Shunting(['(', '-'], out + [Num(456.0)]))
  {
  }

  lemma NegativesShunt2(ts: seq<Token>, p: seq<Token>)
    requires |ts| == 15 && ts[2] == Num(456.0)
    requires |p| == 11 && p[0] == Num(456.0)
    ensures ShuntFrom(Shunting(['(', '-'], p[..0]), ts[2..]) == ShuntFrom(Shunting(['(', '-'], p[..1]), ts[3..])
  {
    NegativesStep2(p[..0]);
    TakeExtend(p, 0, 1);
    assert p[0..1] == [Num(456.0)];
    ShuntAt(Shunting(['(', '-'], p[..0]), ts, 2);
  }

  lemma NegativesStep3(out: seq<Token>)
    ensures Step(Shunting(['(', '-'], out), Sym('*')) == Ok(Shunting(['(', '-', '*'], out))
  {
    PopOpenMinus2();
    assert Symbols([]) == [];
    assert ['(', '-'] + ['*'] == ['(', '-', '*'];
    assert out + [] == out;
  }

  lemma NegativesShunt3(ts: seq<Token>, p: seq<Token>)
    requires |ts| == 15 && ts[3] == Sym('*')
    requires |p| == 11
    ensures ShuntFrom(Shunting(['(', '-'], p[..1]), ts[3..]) == ShuntFrom(Shunting(['(', '-', '*'], p[..1]), ts[4..])
  {
    NegativesStep3(p[..1]);
    ShuntAt(Shunting(['(', '-'], p[..1]), ts, 3);
  }

  lemma NegativesStep4(out: seq<Token>)
    ensures Step(Shunting(['(', '-', '*'], out), Num(4.0)) == Ok(Shunting(['(', '-', '*'], out + [Num(4.0)]))
  {
  }

  lemma NegativesShunt4(ts: seq<Token>, p: seq<Token>)
    requires |ts| == 15 && ts[4] == Num(4.0)
    requires |p| == 11 && p[1] == Num(4.0)
    ensures ShuntFrom(Shunting(['(', '-', '*'], p[..1]), ts[4..]) == ShuntFrom(Shunting(['(', '-', '*'], p[..2]), ts[5..])
  {
    NegativesStep4(p[..1]);
    TakeExtend(p, 1, 2);
    assert p[1..2] == [Num(4.0)];
    ShuntAt(Shunting(['(', '-', '*'], p[..1]), ts, 4);
  }

  lemma NegativesStep5(out: seq<Token>)
    ensures Step(Shunting(['(', '-', '*'], out), Sym(')')) == Ok(Shunting([], out + [Sym('*'), Sym('-')]))
  {
    PopOpenMinusTimes();
    SymbolsTimesMinus();
  }

  lemma NegativesShunt5(ts: seq<Token>, p: seq<Token>)
    requires |ts| == 15 && ts[5] == Sym(')')
    requires |p| == 11 && p[2] == Sym('*') && p[3] == Sym('-')
    ensures ShuntFrom(Shunting(['(', '-', '*'], p[..2]), ts[5..]) == ShuntFrom(Shunting([], p[..4]), ts[6..])
  {
    NegativesStep5(p[..2]);
    TakeExtend(p, 2, 4);
    assert p[2..4] == [Sym('*'), Sym('-')];
    ShuntAt(Shunting(['(', '-', '*'], p[..2]), ts, 5);
  }

  lemma NegativesStep6(out: seq<Token>)
    ensures Step(Shunting([], out), Sym('-')) == Ok(Shunting(['-'], out))
  {
    PopEmpty(1);
    assert Symbols([]) == [];
    assert [] + ['-'] == ['-'];
    assert out + [] == out;
  }

  lemma NegativesShunt6(ts: seq<Token>, p: seq<Token>)
    requires |ts| == 15 && ts[6] == Sym('-')
    requires |p| == 11
    ensures ShuntFrom(Shunting([], p[..4]), ts[6..]) == ShuntFrom(Shunting(['-'], p[..4]), ts[7..])
  {
    NegativesStep6(p[..4]);
    ShuntAt(Shunting([], p[..4]), ts, 6);
  }

  lemma NegativesStep7(out: seq<Token>)
    ensures Step(Shunting(['-'], out), Sym('(')) == Ok(Shunting(['-', '('], out))
  {
    assert ['-'] + ['('] == ['-', '('];
    assert out + [] == out;
  }

  lemma NegativesShunt7(ts: seq<Token>, p: seq<Token>)
    requires |ts| == 15 && ts[7] == Sym('(')
    requires |p| == 11
    ensures ShuntFrom(Shunting(['-'], p[..4]), ts[7..]) == ShuntFrom(Shunting(['-', '('], p[..4]), ts[8..])
  {
    NegativesStep7(p[..4]);
    ShuntAt(Shunting(['-'], p[..4]), ts, 7);
  }

  lemma NegativesStep8(out: seq<Token>)
    ensures Step(Shunting(['-', '('], out), Sym('~')) == Ok(Shunting(['-', '(', '~'], out))
  {
    PopMinusOpen4();
    assert Symbols([]) == [];
    assert ['-', '('] + ['~'] == ['-', '(', '~'];
    assert out + [] == out;
  }

  lemma NegativesShunt8(ts: seq<Token>, p: seq<Token>)
    requires |ts| == 15 && ts[8] == Sym('~')
    requires |p| == 11
    ensures ShuntFrom(Shunting(['-', '('], p[..4]), ts[8..]) == ShuntFrom(Shunting(['-', '(', '~'], p[..4]), ts[9..])
  {
    NegativesStep8(p[..4]);
    ShuntAt(Shunting(['-', '('], p[..4]), ts, 8);
  }

  lemma NegativesStep9(out: seq<Token>)
    ensures Step(Shunting(['-', '(', '~'], out), Num(5.0)) == Ok(Shunting(['-', '(', '~'], out + [Num(5.0)]))
  {
  }

  lemma NegativesShunt9(ts: seq<Token>, p: seq<Token>)
    requires |ts| == 15 && ts[9] == Num(5.0)
    requires |p| == 11 && p[4] == Num(5.0)
    ensures ShuntFrom(Shunting(['-', '(', '~'], p[..4]), ts[9..]) == ShuntFrom(Shunting(['-', '(', '~'], p[..5]), ts[10..])
  {
    NegativesStep9(p[..4]);
    TakeExtend(p, 4, 5);
    assert p[4..5] == [Num(5.0)];
    ShuntAt(Shunting(['-', '(', '~'], p[..4]), ts, 9);
  }

  lemma NegativesStep10(out: seq<Token>)
    ensures Step(Shunting(['-', '(', '~'], out), Sym('+')) == Ok(Shunting(['-', '(', '+'], out + [Sym('~')]))
  {
    PopMinusOpenNeg1();
    assert Symbols(['~']) == [Sym('~')];
    assert ['-', '('] + ['+'] == ['-', '(', '+'];
  }

  lemma NegativesShunt10(ts: seq<Token>, p: seq<Token>)
    requires |ts| == 15 && ts[10] == Sym('+')
    requires |p| == 11 && p[5] == Sym('~')
    ensures ShuntFrom(Shunting(['-', '(', '~'], p[..5]), ts[10..]) == ShuntFrom(Shunting(['-', '(', '+'], p[..6]), ts[11..])
  {
    NegativesStep10(p[..5]);
    TakeExtend(p, 5, 6);
    assert p[5..6] == [Sym('~')];
    ShuntAt(Shunting(['-', '(', '~'], p[..5]), ts, 10);
  }

  lemma NegativesStep11(out: seq<Token>)
    ensures Step(Shunting(['-', '(', '+'], out), Num(3.0)) == Ok(Shunting(['-', '(', '+'], out + [Num(3.0)]))
  {
  }

  lemma NegativesShunt11(ts: seq<Token>, p: seq<Token>)
    requires |ts| == 15 && ts[11] == Num(3.0)
    requires |p| == 11 && p[6] == Num(3.0)
    ensures ShuntFrom(Shunting(['-', '(', '+'], p[..6]), ts[11..]) == ShuntFrom(Shunting(['-', '(', '+'], p[..7]), ts[12..])
  {
    NegativesStep11(p[..6]);
    TakeExtend(p, 6, 7);
    assert p[6..7] == [Num(3.0)];
    ShuntAt(Shunting(['-', '(', '+'], p[..6]), ts, 11);
  }

  lemma NegativesStep12(out: seq<Token>)
    ensures Step(Shunting(['-', '(', '+'], out), Sym(')')) == Ok(Shunting(['-'], out + [Sym('+')]))
  {
    PopOneOverOpen('-', '+');
    assert Symbols(['+']) == [Sym('+')];
  }

  lemma NegativesShunt12(ts: seq<Token>, p: seq<Token>)
    requires |ts| == 15 && ts[12] == Sym(')')
    requires |p| == 11 && p[7] == Sym('+')
    ensures ShuntFrom(Shunting(['-', '(', '+'], p[..7]), ts[12..]) == ShuntFrom(Shunting(['-'], p[..8]), ts[13..])
  {
    NegativesStep12(p[..7]);
    TakeExtend(p, 7, 8);
    assert p[7..8] == [Sym('+')];
    ShuntAt(Shunting(['-', '(', '+'], p[..7]), ts, 12);
  }

  lemma NegativesStep13(out: seq<Token>)
    ensures Step(Shunting(['-'], out), Sym('*')) == Ok(Shunting(['-', '*'], out))
  {
    PopMinus2();
    assert Symbols([]) == [];
    assert ['-'] + ['*'] == ['-', '*'];
    assert out + [] == out;
  }

  lemma NegativesShunt13(ts: seq<Token>, p: seq<Token>)
    requires |ts| == 15 && ts[13] == Sym('*')
    requires |p| == 11
    ensures ShuntFrom(Shunting(['-'], p[..8]), ts[13..]) == ShuntFrom(Shunting(['-', '*'], p[..8]), ts[14..])
  {
    NegativesStep13(p[..8]);
    ShuntAt(Shunting(['-'], p[..8]), ts, 13);
  }

  lemma NegativesStep14(out: seq<Token>)
    ensures Step(Shunting(['-', '*'], out), Num(4.0)) == Ok(Shunting(['-', '*'], out + [Num(4.0)]))
  {
  }

  lemma NegativesShunt14(ts: seq<Token>, p: seq<Token>)
    requires |ts| == 15 && ts[14] == Num(4.0)
    requires |p| == 11 && p[8] == Num(4.0)
    ensures ShuntFrom(Shunting(['-', '*'], p[..8]), ts[14..]) == ShuntFrom(Shunting(['-', '*'], p[..9]), ts[15..])
  {
    NegativesStep14(p[..8]);
    TakeExtend(p, 8, 9);
    assert p[8..9] == [Num(4.0)];
    ShuntAt(Shunting(['-', '*'], p[..8]), ts, 14);
  }

  lemma NegativesFlush(ts: seq<Token>, p: seq<Token>)
    requires |ts| == 15
    requires |p| == 11 && p[9] == Sym('*') && p[10] == Sym('-')
    ensures ShuntFrom(Shunting(['-', '*'], p[..9]), ts[15..]) == Ok(p)
  {
    assert ts[15..] == [];
    assert Reverse(['*']) == ['*'];
    assert Reverse(['-', '*']) == ['*', '-'] by {
      assert ['-', '*'][1..] == ['*'];
    }
    assert Symbols(['*', '-']) == [Sym('*'), Sym('-')];
    TakeExtend(p, 9, 11);
    assert p[9..11] == [Sym('*'), Sym('-')];
    assert p[..11] == p;
  }

  lemma NegativesPostfix(ts: seq<Token>, p: seq<Token>)
    requires |ts| == 15 && ts[0] == Sym('(') && ts[1] == Sym('-') && ts[2] == Num(456.0) && ts[3] == Sym('*') && ts[4] == Num(4.0) && ts[5] == Sym(')') && ts[6] == Sym('-') && ts[7] == Sym('(') && ts[8] == Sym('~') && ts[9] == Num(5.0) && ts[10] == Sym('+') && ts[11] == Num(3.0) && ts[12] == Sym(')') && ts[13] == Sym('*') && ts[14] == Num(4.0)
    requires |p| == 11 && p[0] == Num(456.0) && p[1] == Num(4.0) && p[2] == Sym('*') && p[3] == Sym('-') && p[4] == Num(5.0) && p[5] == Sym('~') && p[6] == Num(3.0) && p[7] == Sym('+') && p[8] == Num(4.0) && p[9] == Sym('*') && p[10] == Sym('-')
    ensures Postfix(ts) == Ok(p)
  {
    assert p[..0] == [];
    assert ts[0..] == ts;
    NegativesShunt0(ts, p);
    NegativesShunt1(ts, p);
    NegativesShunt2(ts, p);
    NegativesShunt3(ts, p);
    NegativesShunt4(ts, p);
    NegativesShunt5(ts, p);
    NegativesShunt6(ts, p);
    NegativesShunt7(ts, p);
    NegativesShunt8(ts, p);
    NegativesShunt9(ts, p);
    NegativesShunt10(ts, p);
    NegativesShunt11(ts, p);
    NegativesShunt12(ts, p);
    NegativesShunt13(ts, p);
    NegativesShunt14(ts, p);
    NegativesFlush(ts, p);
  }

  lemma NegativesCalc0()
    ensures EvalStep([], Num(456.0)) == Continue([Float(456.0)])
  {
  }

  lemma NegativesCalc1()
    ensures EvalStep([Float(456.0)], Num(4.0)) == Continue([Float(456.0), Float(4.0)])
  {
  }

  lemma NegativesCalc2()
    ensures EvalStep([Float(456.0), Float(4.0)], Sym('*')) == Continue([Float(1824.0)])
  {
  }

  lemma NegativesCalc3()
    ensures EvalStep([Float(1824.0)], Sym('-')) == Continue([Float(-1824.0)])
  {
  }

  lemma NegativesCalc4()
    ensures EvalStep([Float(-1824.0)], Num(5.0)) == Continue([Float(-1824.0), Float(5.0)])
  {
  }

  lemma NegativesCalc5()
    ensures EvalStep([Float(-1824.0), Float(5.0)], Sym('~')) == Continue([Float(-1824.0), Float(-5.0)])
  {
  }

  lemma NegativesCalc6()
    ensures EvalStep([Float(-1824.0), Float(-5.0)], Num(3.0)) == Continue([Float(-1824.0), Float(-5.0), Float(3.0)])
  {
  }

  lemma NegativesCalc7()
    ensures EvalStep([Float(-1824.0), Float(-5.0), Float(3.0)], Sym('+')) == Continue([Float(-1824.0), Float(-2.0)])
  {
  }

  lemma NegativesCalc8()
    ensures EvalStep([Float(-1824.0), Float(-2.0)], Num(4.0)) == Continue([Float(-1824.0), Float(-2.0), Float(4.0)])
  {
  }

  lemma NegativesCalc9()
    ensures EvalStep([Float(-1824.0), Float(-2.0), Float(4.0)], Sym('*')) == Continue([Float(-1824.0), Float(-8.0)])
  {
  }

  lemma NegativesCalc10()
    ensures EvalStep([Float(-1824.0), Float(-8.0)], Sym('-')) == Continue([Float(-1816.0)])
  {
  }

  lemma NegativesEval(p: seq<Token>)
    requires |p| == 11 && p[0] == Num(456.0) && p[1] == Num(4.0) && p[2] == Sym('*') && p[3] == Sym('-') && p[4] == Num(5.0) && p[5] == Sym('~') && p[6] == Num(3.0) && p[7] == Sym('+') && p[8] == Num(4.0) && p[9] == Sym('*') && p[10] == Sym('-')
    ensures Eval(p) == Ok(Float(-1816.0))
  {
    assert p[0..] == p;
    assert Fold([], p[0..]) == Fold([Float(456.0)], p[1..]) by {
      NegativesCalc0();
      FoldAt([], p, 0);
    }
    assert Fold([Float(456.0)], p[1..]) == Fold([Float(456.0), Float(4.0)], p[2..]) by {
      NegativesCalc1();
      FoldAt([Float(456.0)], p, 1);
    }
    assert Fold([Float(456.0), Float(4.0)], p[2..]) == Fold([Float(1824.0)], p[3..]) by {
      NegativesCalc2();
      FoldAt([Float(456.0), Float(4.0)], p, 2);
    }
    assert Fold([Float(1824.0)], p[3..]) == Fold([Float(-1824.0)], p[4..]) by {
      NegativesCalc3();
      FoldAt([Float(1824.0)], p, 3);
    }
    assert Fold([Float(-1824.0)], p[4..]) == Fold([Float(-1824.0), Float(5.0)], p[5..]) by {
      NegativesCalc4();
      FoldAt([Float(-1824.0)], p, 4);
    }
    assert Fold([Float(-1824.0), Float(5.0)], p[5..]) == Fold([Float(-1824.0), Float(-5.0)], p[6..]) by {
      NegativesCalc5();
      FoldAt([Float(-1824.0), Float(5.0)], p, 5);
    }
    assert Fold([Float(-1824.0), Float(-5.0)], p[6..]) == Fold([Float(-1824.0), Float(-5.0), Float(3.0)], p[7..]) by {
      NegativesCalc6();
      FoldAt([Float(-1824.0), Float(-5.0)], p, 6);
    }
    assert Fold([Float(-1824.0), Float(-5.0), Float(3.0)], p[7..]) == Fold([Float(-1824.0), Float(-2.0)], p[8..]) by {
      NegativesCalc7();
      FoldAt([Float(-1824.0), Float(-5.0), Float(3.0)], p, 7);
    }
    assert Fold([Float(-1824.0), Float(-2.0)], p[8..]) == Fold([Float(-1824.0), Float(-2.0), Float(4.0)], p[9..]) by {
      NegativesCalc8();
      FoldAt([Float(-1824.0), Float(-2.0)], p, 8);
    }
    assert Fold([Float(-1824.0), Float(-2.0), Float(4.0)], p[9..]) == Fold([Float(-1824.0), Float(-8.0)], p[10..]) by {
      NegativesCalc9();
      FoldAt([Float(-1824.0), Float(-2.0), Float(4.0)], p, 9);
    }
    assert Fold([Float(-1824.0), Float(-8.0)], p[10..]) == Fold([Float(-1816.0)], p[11..]) by {
      NegativesCalc10();
      FoldAt([Float(-1824.0), Float(-8.0)], p, 10);
    }
    assert p[11..] == [];
  }

  lemma NegativesAllowed(q: string)
    requires |q| == 17 && q[0] == '(' && q[1] == '-' && q[2] == '4' && q[3] == '5' && q[4] == '6' && q[5] == '*' && q[6] == '4' && q[7] == ')' && q[8] == '-' && q[9] == '(' && q[10] == '-' && q[11] == '5' && q[12] == '+' && q[13] == '3' && q[14] == ')' && q[15] == '*' && q[16] == '4'
    ensures forall k :: 0 <= k < |q| ==> !IsSpace(q[k]) && IsAllowed(q[k])
  {
    forall k | 0 <= k < |q| ensures !IsSpace(q[k]) && IsAllowed(q[k]) {
      assert k == 0 || k == 1 || k == 2 || k == 3 || k == 4 || k == 5 || k == 6 || k == 7 || k == 8 || k == 9 || k == 10 || k == 11 || k == 12 || k == 13 || k == 14 || k == 15 || k == 16;
    }
  }

  lemma NegativesRun(q: string, ts: seq<Token>, p: seq<Token>)
    requires |q| == 17 && q[0] == '(' && q[1] == '-' && q[2] == '4' && q[3] == '5' && q[4] == '6' && q[5] == '*' && q[6] == '4' && q[7] == ')' && q[8] == '-' && q[9] == '(' && q[10] == '-' && q[11] == '5' && q[12] == '+' && q[13] == '3' && q[14] == ')' && q[15] == '*' && q[16] == '4'
    requires |ts| == 15 && ts[0] == Sym('(') && ts[1] == Sym('-') && ts[2] == Num(456.0) && ts[3] == Sym('*') && ts[4] == Num(4.0) && ts[5] == Sym(')') && ts[6] == Sym('-') && ts[7] == Sym('(') && ts[8] == Sym('~') && ts[9] == Num(5.0) && ts[10] == Sym('+') && ts[11] == Num(3.0) && ts[12] == Sym(')') && ts[13] == Sym('*') && ts[14] == Num(4.0)
    requires |p| == 11 && p[0] == Num(456.0) && p[1] == Num(4.0) && p[2] == Sym('*') && p[3] == Sym('-') && p[4] == Num(5.0) && p[5] == Sym('~') && p[6] == Num(3.0) && p[7] == Sym('+') && p[8] == Num(4.0) && p[9] == Sym('*') && p[10] == Sym('-')
    ensures Postfix(Lex(q)) == Ok(p)
    ensures Query(q) == Ok(Float(-1816.0))
  {
    NegativesLex(q, ts);
    NegativesPostfix(ts, p);
    NegativesEval(p);
    NegativesAllowed(q);
    QueryOfAllowed(q);
  }

  /** `(-456*4)-(-5+3)*4` is -1816. The `-` at index 1 stays binary and
      takes the missing left operand as 0; the `-` after the second `(` is
      the unary minus `~`. */
  lemma Negatives()
    ensures Postfix(Lex("(-456*4)-(-5+3)*4")) == Ok([Num(456.0), Num(4.0), Sym('*'), Sym('-'), Num(5.0), Sym('~'), Num(3.0), Sym('+'), Num(4.0), Sym('*'), Sym('-')])
    ensures Query("(-456*4)-(-5+3)*4") == Ok(Float(-1816.0))
  {
    NegativesRun("(-456*4)-(-5+3)*4", [Sym('('), Sym('-'), Num(456.0), Sym('*'), Num(4.0), Sym(')'), Sym('-'), Sym('('), Sym('~'), Num(5.0), Sym('+'), Num(3.0), Sym(')'), Sym('*'), Num(4.0)], [Num(456.0), Num(4.0), Sym('*'), Sym('-'), Num(5.0), Sym('~'), Num(3.0), Sym('+'), Num(4.0), Sym('*'), Sym('-')]);
  }

  lemma NegativeSquareLexeme8(q: string)
    requires |q| == 9 && q[7] == '5' && q[8] == ')'
    ensures LexFrom(q, 8, []) == [Sym(')')] + LexFrom(q, 9, [])
  {
    SymbolLexeme(q, 8, ')');
  }

  lemma NegativeSquareEnd6(q: string)
    requires |q| == 9 && q[6] == '4' && q[7] == '5' && q[8] == ')'
    ensures NumeralEnd(q, 6) == 8
  {
    assert DigitsEnd(q, 8) == 8;
    assert DigitsEnd(q, 7) == 8;
    assert DigitsEnd(q, 6) == 8;
  }

  lemma NegativeSquareLexeme6(q: string)
    requires |q| == 9 && q[5] == '-' && q[6] == '4' && q[7] == '5' && q[8] == ')'
    ensures LexFrom(q, 6, []) == [Num(45.0)] + LexFrom(q, 8, [])
  {
    NegativeSquareEnd6(q);
    assert DecimalValue(q[6..8]) == 45.0 by {
      assert q[6..8] == "45";
      Literal45();
    }
    NumberLexeme(q, 6, 8, 45.0);
  }

  lemma NegativeSquareLexeme5(q: string)
    requires |q| == 9 && q[4] == '(' && q[5] == '-' && q[6] == '4'
    ensures LexFrom(q, 5, []) == [Sym('~')] + LexFrom(q, 6, [])
  {
    SymbolLexeme(q, 5, '~');
  }

  lemma NegativeSquareLexeme4(q: string)
    requires |q| == 9 && q[3] == '*' && q[4] == '(' && q[5] == '-'
    ensures LexFrom(q, 4, []) == [Sym('(')] + LexFrom(q, 5, [])
  {
    SymbolLexeme(q, 4, '(');
  }

  lemma NegativeSquareLexeme3(q: string)
    requires |q| == 9 && q[2] == '5' && q[3] == '*' && q[4] == '('
    ensures LexFrom(q, 3, []) == [Sym('*')] + LexFrom(q, 4, [])
  {
    SymbolLexeme(q, 3, '*');
  }

  lemma NegativeSquareEnd1(q: string)
    requires |q| == 9 && q[1] == '4' && q[2] == '5' && q[3] == '*'
    ensures NumeralEnd(q, 1) == 3
  {
    assert DigitsEnd(q, 3) == 3;
    assert DigitsEnd(q, 2) == 3;
    assert DigitsEnd(q, 1) == 3;
  }

  lemma NegativeSquareLexeme1(q: string)
    requires |q| == 9 && q[0] == '-' && q[1] == '4' && q[2] == '5' && q[3] == '*'
    ensures LexFrom(q, 1, []) == [Num(45.0)] + LexFrom(q, 3, [])
  {
    NegativeSquareEnd1(q);
    assert DecimalValue(q[1..3]) == 45.0 by {
      assert q[1..3] == "45";
      Literal45();
    }
    NumberLexeme(q, 1, 3, 45.0);
  }

  lemma NegativeSquareLexeme0(q: string)
    requires |q| == 9 && q[0] == '-' && q[1] == '4'
    ensures LexFrom(q, 0, []) == [Sym('~')] + LexFrom(q, 1, [])
  {
    SymbolLexeme(q, 0, '~');
  }

  lemma NegativeSquareLex(q: string, ts: seq<Token>)
    requires |q| == 9 && q[0] == '-' && q[1] == '4' && q[2] == '5' && q[3] == '*' && q[4] == '(' && q[5] == '-' && q[6] == '4' && q[7] == '5' && q[8] == ')'
    requires |ts| == 7 && ts[0] == Sym('~') && ts[1] == Num(45.0) && ts[2] == Sym('*') && ts[3] == Sym('(') && ts[4] == Sym('~') && ts[5] == Num(45.0) && ts[6] == Sym(')')
    ensures Lex(q) == ts
  {
    LexFromEnd(q, []);
    assert ts[7..] == [];
    assert LexFrom(q, 8, []) == ts[6..] by {
      NegativeSquareLexeme8(q);
      DropCons(ts, 6);
    }
    assert LexFrom(q, 6, []) == ts[5..] by {
      NegativeSquareLexeme6(q);
      DropCons(ts, 5);
    }
    assert LexFrom(q, 5, []) == ts[4..] by {
      NegativeSquareLexeme5(q);
      DropCons(ts, 4);
    }
    assert LexFrom(q, 4, []) == ts[3..] by {
      NegativeSquareLexeme4(q);
      DropCons(ts, 3);
    }
    assert LexFrom(q, 3, []) == ts[2..] by {
      NegativeSquareLexeme3(q);
      DropCons(ts, 2);
    }
    assert LexFrom(q, 1, []) == ts[1..] by {
      NegativeSquareLexeme1(q);
      DropCons(ts, 1);
    }
    assert LexFrom(q, 0, []) == ts[0..] by {
      NegativeSquareLexeme0(q);
      DropCons(ts, 0);
    }
    assert ts[0..] == ts;
  }

  lemma NegativeSquareStep0(out: seq<Token>)
    ensures Step(Shunting([], out), Sym('~')) == Ok(Shunting(['~'], out))
  {
    PopEmpty(4);
    assert Symbols([]) == [];
    assert [] + ['~'] == ['~'];
    assert out + [] == out;
  }

  lemma NegativeSquareShunt0(ts: seq<Token>, p: seq<Token>)
    requires |ts| == 7 && ts[0] == Sym('~')
    requires |p| == 5
    ensures ShuntFrom(Shunting([], p[..0]), ts[0..]) == ShuntFrom(Shunting(['~'], p[..0]), ts[1..])
  {
    NegativeSquareStep0(p[..0]);
    ShuntAt(Shunting([], p[..0]), ts, 0);
  }

  lemma NegativeSquareStep1(out: seq<Token>)
    ensures Step(Shunting(['~'], out), Num(45.0)) == Ok(Shunting(['~'], out + [Num(45.0)]))
  {
  }

  lemma NegativeSquareShunt1(ts: seq<Token>, p: seq<Token>)
    requires |ts| == 7 && ts[1] == Num(45.0)
    requires |p| == 5 && p[0] == Num(45.0)
    ensures ShuntFrom(Shunting(['~'], p[..0]), ts[1..]) == ShuntFrom(Shunting(['~'], p[..1]), ts[2..])
  {
    NegativeSquareStep1(p[..0]);
    TakeExtend(p, 0, 1);
    assert p[0..1] == [Num(45.0)];
    ShuntAt(Shunting(['~'], p[..0]), ts, 1);
  }

  lemma NegativeSquareStep2(out: seq<Token>)
    ensures Step(Shunting(['~'], out), Sym('*')) == Ok(Shunting(['*'], out + [Sym('~')]))
  {
    PopNeg2();
    assert Symbols(['~']) == [Sym('~')];
    assert [] + ['*'] == ['*'];
  }

  lemma NegativeSquareShunt2(ts: seq<Token>, p: seq<Token>)
    requires |ts| == 7 && ts[2] == Sym('*')
    requires |p| == 5 && p[1] == Sym('~')
    ensures ShuntFrom(Shunting(['~'], p[..1]), ts[2..]) == ShuntFrom(Shunting(['*'], p[..2]), ts[3..])
  {
    NegativeSquareStep2(p[..1]);
    TakeExtend(p, 1, 2);
    assert p[1..2] == [Sym('~')];
    ShuntAt(Shunting(['~'], p[..1]), ts, 2);
  }

  lemma NegativeSquareStep3(out: seq<Token>)
    ensures Step(Shunting(['*'], out), Sym('(')) == Ok(Shunting(['*', '('], out))
  {
    assert ['*'] + ['('] == ['*', '('];
    assert out + [] == out;
  }

  lemma NegativeSquareShunt3(ts: seq<Token>, p: seq<Token>)
    requires |ts| == 7 && ts[3] == Sym('(')
    requires |p| == 5
    ensures ShuntFrom(Shunting(['*'], p[..2]), ts[3..]) == ShuntFrom(Shunting(['*', '('], p[..2]), ts[4..])
  {
    NegativeSquareStep3(p[..2]);
    ShuntAt(Shunting(['*'], p[..2]), ts, 3);
  }

  lemma NegativeSquareStep4(out: seq<Token>)
    ensures Step(Shunting(['*', '('], out), Sym('~')) == Ok(Shunting(['*', '(', '~'], out))
  {
    PopTimesOpen4();
    assert Symbols([]) == [];
    assert ['*', '('] + ['~'] == ['*', '(', '~'];
    assert out + [] == out;
  }

  lemma NegativeSquareShunt4(ts: seq<Token>, p: seq<Token>)
    requires |ts| == 7 && ts[4] == Sym('~')
    requires |p| == 5
    ensures ShuntFrom(Shunting(['*', '('], p[..2]), ts[4..]) == ShuntFrom(Shunting(['*', '(', '~'], p[..2]), ts[5..])
  {
    NegativeSquareStep4(p[..2]);
    ShuntAt(Shunting(['*', '('], p[..2]), ts, 4);
  }

  lemma NegativeSquareStep5(out: seq<Token>)
    ensures Step(Shunting(['*', '(', '~'], out), Num(45.0)) == Ok(Shunting(['*', '(', '~'], out + [Num(45.0)]))
  {
  }

  lemma NegativeSquareShunt5(ts: seq<Token>, p: seq<Token>)
    requires |ts| == 7 && ts[5] == Num(45.0)
    requires |p| == 5 && p[2] == Num(45.0)
    ensures ShuntFrom(Shunting(['*', '(', '~'], p[..2]), ts[5..]) == ShuntFrom(Shunting(['*', '(', '~'], p[..3]), ts[6..])
  {
    NegativeSquareStep5(p[..2]);
    TakeExtend(p, 2, 3);
    assert p[2..3] == [Num(45.0)];
    ShuntAt(Shunting(['*', '(', '~'], p[..2]), ts, 5);
  }

  lemma NegativeSquareStep6(out: seq<Token>)
    ensures Step(Shunting(['*', '(', '~'], out), Sym(')')) == Ok(Shunting(['*'], out + [Sym('~')]))
  {
    PopOneOverOpen('*', '~');
    assert Symbols(['~']) == [Sym('~')];
  }

  lemma NegativeSquareShunt6(ts: seq<Token>, p: seq<Token>)
    requires |ts| == 7 && ts[6] == Sym(')')
    requires |p| == 5 && p[3] == Sym('~')
    ensures ShuntFrom(Shunting(['*', '(', '~'], p[..3]), ts[6..]) == ShuntFrom(Shunting(['*'], p[..4]), ts[7..])
  {
    NegativeSquareStep6(p[..3]);
    TakeExtend(p, 3, 4);
    assert p[3..4] == [Sym('~')];
    ShuntAt(Shunting(['*', '(', '~'], p[..3]), ts, 6);
  }

  lemma NegativeSquareFlush(ts: seq<Token>, p: seq<Token>)
    requires |ts| == 7
    requires |p| == 5 && p[4] == Sym('*')
    ensures ShuntFrom(Shunting(['*'], p[..4]), ts[7..]) == Ok(p)
  {
    assert ts[7..] == [];
    assert Reverse(['*']) == ['*'];
    assert Symbols(['*']) == [Sym('*')];
    TakeExtend(p, 4, 5);
    assert p[4..5] == [Sym('*')];
    assert p[..5] == p;
  }

  lemma NegativeSquarePostfix(ts: seq<Token>, p: seq<Token>)
    requires |ts| == 7 && ts[0] == Sym('~') && ts[1] == Num(45.0) && ts[2] == Sym('*') && ts[3] == Sym('(') && ts[4] == Sym('~') && ts[5] == Num(45.0) && ts[6] == Sym(')')
    requires |p| == 5 && p[0] == Num(45.0) && p[1] == Sym('~') && p[2] == Num(45.0) && p[3] == Sym('~') && p[4] == Sym('*')
    ensures Postfix(ts) == Ok(p)
  {
    assert p[..0] == [];
    assert ts[0..] == ts;
    NegativeSquareShunt0(ts, p);
    NegativeSquareShunt1(ts, p);
    NegativeSquareShunt2(ts, p);
    NegativeSquareShunt3(ts, p);
    NegativeSquareShunt4(ts, p);
    NegativeSquareShunt5(ts, p);
    NegativeSquareShunt6(ts, p);
    NegativeSquareFlush(ts, p);
  }

  lemma NegativeSquareCalc0()
    ensures EvalStep([], Num(45.0)) == Continue([Float(45.0)])
  {
  }

  lemma NegativeSquareCalc1()
    ensures EvalStep([Float(45.0)], Sym('~')) == Continue([Float(-45.0)])
  {
  }

  lemma NegativeSquareCalc2()
    ensures EvalStep([Float(-45.0)], Num(45.0)) == Continue([Float(-45.0), Float(45.0)])
  {
  }

  lemma NegativeSquareCalc3()
    ensures EvalStep([Float(-45.0), Float(45.0)], Sym('~')) == Continue([Float(-45.0), Float(-45.0)])
  {
  }

  lemma NegativeSquareCalc4()
    ensures EvalStep([Float(-45.0), Float(-45.0)], Sym('*')) == Continue([Float(2025.0)])
  {
  }

  lemma NegativeSquareEval(p: seq<Token>)
    requires |p| == 5 && p[0] == Num(45.0) && p[1] == Sym('~') && p[2] == Num(45.0) && p[3] == Sym('~') && p[4] == Sym('*')
    ensures Eval(p) == Ok(Float(2025.0))
  {
    assert p[0..] == p;
    assert Fold([], p[0..]) == Fold([Float(45.0)], p[1..]) by {
      NegativeSquareCalc0();
      FoldAt([], p, 0);
    }
    assert Fold([Float(45.0)], p[1..]) == Fold([Float(-45.0)], p[2..]) by {
      NegativeSquareCalc1();
      FoldAt([Float(45.0)], p, 1);
    }
    assert Fold([Float(-45.0)], p[2..]) == Fold([Float(-45.0), Float(45.0)], p[3..]) by {
      NegativeSquareCalc2();
      FoldAt([Float(-45.0)], p, 2);
    }
    assert Fold([Float(-45.0), Float(45.0)], p[3..]) == Fold([Float(-45.0), Float(-45.0)], p[4..]) by {
      NegativeSquareCalc3();
      FoldAt([Float(-45.0), Float(45.0)], p, 3);
    }
    assert Fold([Float(-45.0), Float(-45.0)], p[4..]) == Fold([Float(2025.0)], p[5..]) by {
      NegativeSquareCalc4();
      FoldAt([Float(-45.0), Float(-45.0)], p, 4);
    }
    assert p[5..] == [];
  }

  lemma NegativeSquareAllowed(q: string)
    requires |q| == 9 && q[0] == '-' && q[1] == '4' && q[2] == '5' && q[3] == '*' && q[4] == '(' && q[5] == '-' && q[6] == '4' && q[7] == '5' && q[8] == ')'
    ensures forall k :: 0 <= k < |q| ==> !IsSpace(q[k]) && IsAllowed(q[k])
  {
    forall k | 0 <= k < |q| ensures !IsSpace(q[k]) && IsAllowed(q[k]) {
      assert k == 0 || k == 1 || k == 2 || k == 3 || k == 4 || k == 5 || k == 6 || k == 7 || k == 8;
    }
  }

  lemma NegativeSquareRun(q: string, ts: seq<Token>, p: seq<Token>)
    requires |q| == 9 && q[0] == '-' && q[1] == '4' && q[2] == '5' && q[3] == '*' && q[4] == '(' && q[5] == '-' && q[6] == '4' && q[7] == '5' && q[8] == ')'
    requires |ts| == 7 && ts[0] == Sym('~') && ts[1] == Num(45.0) && ts[2] == Sym('*') && ts[3] == Sym('(') && ts[4] == Sym('~') && ts[5] == Num(45.0) && ts[6] == Sym(')')
    requires |p| == 5 && p[0] == Num(45.0) && p[1] == Sym('~') && p[2] == Num(45.0) && p[3] == Sym('~') && p[4] == Sym('*')
    ensures Postfix(Lex(q)) == Ok(p)
    ensures Query(q) == Ok(Float(2025.0))
  {
    NegativeSquareLex(q, ts);
    NegativeSquarePostfix(ts, p);
    NegativeSquareEval(p);
    NegativeSquareAllowed(q);
    QueryOfAllowed(q);
  }

  /** `-45*(-45)` is 2025. */
  lemma NegativeSquare()
    ensures Postfix(Lex("-45*(-45)")) == Ok([Num(45.0), Sym('~'), Num(45.0), Sym('~'), Sym('*')])
    ensures Query("-45*(-45)") == Ok(Float(2025.0))
  {
    NegativeSquareRun("-45*(-45)", [Sym('~'), Num(45.0), Sym('*'), Sym('('), Sym('~'), Num(45.0), Sym(')')], [Num(45.0), Sym('~'), Num(45.0), Sym('~'), Sym('*')]);
  }

  lemma QuotientEnd5(q: string)
    requires |q| == 8 && q[5] == '3' && q[6] == '.' && q[7] == '2'
    ensures NumeralEnd(q, 5) == 8
  {
    assert DigitsEnd(q, 6) == 6;
    assert DigitsEnd(q, 5) == 6;
    assert DigitsEnd(q, 8) == 8;
    assert DigitsEnd(q, 7) == 8;
  }

  lemma QuotientLexeme5(q: string)
    requires |q| == 8 && q[4] == '/' && q[5] == '3' && q[6] == '.' && q[7] == '2'
    ensures LexFrom(q, 5, []) == [Num(3.2)] + LexFrom(q, 8, [])
  {
    QuotientEnd5(q);
    assert DecimalValue(q[5..8]) == 3.2 by {
      assert q[5..8] == "3.2";
      Literal3Dot2();
    }
    NumberLexeme(q, 5, 8, 3.2);
  }

  lemma QuotientLexeme4(q: string)
    requires |q| == 8 && q[3] == '8' && q[4] == '/' && q[5] == '3'
    ensures LexFrom(q, 4, []) == [Sym('/')] + LexFrom(q, 5, [])
  {
    SymbolLexeme(q, 4, '/');
  }

  lemma QuotientEnd0(q: string)
    requires |q| == 8 && q[0] == '5' && q[1] == '.' && q[2] == '7' && q[3] == '8' && q[4] == '/'
    ensures NumeralEnd(q, 0) == 4
  {
    assert DigitsEnd(q, 1) == 1;
    assert DigitsEnd(q, 0) == 1;
    assert DigitsEnd(q, 4) == 4;
    assert DigitsEnd(q, 3) == 4;
    assert DigitsEnd(q, 2) == 4;
  }

  lemma QuotientLexeme0(q: string)
    requires |q| == 8 && q[0] == '5' && q[1] == '.' && q[2] == '7' && q[3] == '8' && q[4] == '/'
    ensures LexFrom(q, 0, []) == [Num(5.78)] + LexFrom(q, 4, [])
  {
    QuotientEnd0(q);
    assert DecimalValue(q[0..4]) == 5.78 by {
      assert q[0..4] == "5.78";
      Literal5Dot78();
    }
    NumberLexeme(q, 0, 4, 5.78);
  }

  lemma QuotientLex(q: string, ts: seq<Token>)
    requires |q| == 8 && q[0] == '5' && q[1] == '.' && q[2] == '7' && q[3] == '8' && q[4] == '/' && q[5] == '3' && q[6] == '.' && q[7] == '2'
    requires |ts| == 3 && ts[0] == Num(5.78) && ts[1] == Sym('/') && ts[2] == Num(3.2)
    ensures Lex(q) == ts
  {
    LexFromEnd(q, []);
    assert ts[3..] == [];
    assert LexFrom(q, 5, []) == ts[2..] by {
      QuotientLexeme5(q);
      DropCons(ts, 2);
    }
    assert LexFrom(q, 4, []) == ts[1..] by {
      QuotientLexeme4(q);
      DropCons(ts, 1);
    }
    assert LexFrom(q, 0, []) == ts[0..] by {
      QuotientLexeme0(q);
      DropCons(ts, 0);
    }
    assert ts[0..] == ts;
  }

  lemma QuotientStep0(out: seq<Token>)
    ensures Step(Shunting([], out), Num(5.78)) == Ok(Shunting([], out + [Num(5.78)]))
  {
  }

  lemma QuotientShunt0(ts: seq<Token>, p: seq<Token>)
    requires |ts| == 3 && ts[0] == Num(5.78)
    requires |p| == 3 && p[0] == Num(5.78)
    ensures ShuntFrom(Shunting([], p[..0]), ts[0..]) == ShuntFrom(Shunting([], p[..1]), ts[1..])
  {
    QuotientStep0(p[..0]);
    TakeExtend(p, 0, 1);
    assert p[0..1] == [Num(5.78)];
    ShuntAt(Shunting([], p[..0]), ts, 0);
  }

  lemma QuotientStep1(out: seq<Token>)
    ensures Step(Shunting([], out), Sym('/')) == Ok(Shunting(['/'], out))
  {
    PopEmpty(2);
    assert Symbols([]) == [];
    assert [] + ['/'] == ['/'];
    assert out + [] == out;
  }

  lemma QuotientShunt1(ts: seq<Token>, p: seq<Token>)
    requires |ts| == 3 && ts[1] == Sym('/')
    requires |p| == 3
    ensures ShuntFrom(Shunting([], p[..1]), ts[1..]) == ShuntFrom(Shunting(['/'], p[..1]), ts[2..])
  {
    QuotientStep1(p[..1]);
    ShuntAt(Shunting([], p[..1]), ts, 1);
  }

  lemma QuotientStep2(out: seq<Token>)
    ensures Step(Shunting(['/'], out), Num(3.2)) == Ok(Shunting(['/'], out + [Num(3.2)]))
  {
  }

  lemma QuotientShunt2(ts: seq<Token>, p: seq<Token>)
    requires |ts| == 3 && ts[2] == Num(3.2)
    requires |p| == 3 && p[1] == Num(3.2)
    ensures ShuntFrom(Shunting(['/'], p[..1]), ts[2..]) == ShuntFrom(Shunting(['/'], p[..2]), ts[3..])
  {
    QuotientStep2(p[..1]);
    TakeExtend(p, 1, 2);
    assert p[1..2] == [Num(3.2)];
    ShuntAt(Shunting(['/'], p[..1]), ts, 2);
  }

  lemma QuotientFlush(ts: seq<Token>, p: seq<Token>)
    requires |ts| == 3
    requires |p| == 3 && p[2] == Sym('/')
    ensures ShuntFrom(Shunting(['/'], p[..2]), ts[3..]) == Ok(p)
  {
    assert ts[3..] == [];
    assert Reverse(['/']) == ['/'];
    assert Symbols(['/']) == [Sym('/')];
    TakeExtend(p, 2, 3);
    assert p[2..3] == [Sym('/')];
    assert p[..3] == p;
  }

  lemma QuotientPostfix(ts: seq<Token>, p: seq<Token>)
    requires |ts| == 3 && ts[0] == Num(5.78) && ts[1] == Sym('/') && ts[2] == Num(3.2)
    requires |p| == 3 && p[0] == Num(5.78) && p[1] == Num(3.2) && p[2] == Sym('/')
    ensures Postfix(ts) == Ok(p)
  {
    assert p[..0] == [];
    assert ts[0..] == ts;
    QuotientShunt0(ts, p);
    QuotientShunt1(ts, p);
    QuotientShunt2(ts, p);
    QuotientFlush(ts, p);
  }

  lemma QuotientCalc0()
    ensures EvalStep([], Num(5.78)) == Continue([Float(5.78)])
  {
  }

  lemma QuotientCalc1()
    ensures EvalStep([Float(5.78)], Num(3.2)) == Continue([Float(5.78), Float(3.2)])
  {
  }

  lemma QuotientCalc2()
    ensures EvalStep([Float(5.78), Float(3.2)], Sym('/')) == Continue([Float(1.80625)])
  {
  }

  lemma QuotientEval(p: seq<Token>)
    requires |p| == 3 && p[0] == Num(5.78) && p[1] == Num(3.2) && p[2] == Sym('/')
    ensures Eval(p) == Ok(Float(1.80625))
  {
    assert p[0..] == p;
    assert Fold([], p[0..]) == Fold([Float(5.78)], p[1..]) by {
      QuotientCalc0();
      FoldAt([], p, 0);
    }
    assert Fold([Float(5.78)], p[1..]) == Fold([Float(5.78), Float(3.2)], p[2..]) by {
      QuotientCalc1();
      FoldAt([Float(5.78)], p, 1);
    }
    assert Fold([Float(5.78), Float(3.2)], p[2..]) == Fold([Float(1.80625)], p[3..]) by {
      QuotientCalc2();
      FoldAt([Float(5.78), Float(3.2)], p, 2);
    }
    assert p[3..] == [];
  }

  lemma QuotientAllowed(q: string)
    requires |q| == 8 && q[0] == '5' && q[1] == '.' && q[2] == '7' && q[3] == '8' && q[4] == '/' && q[5] == '3' && q[6] == '.' && q[7] == '2'
    ensures forall k :: 0 <= k < |q| ==> !IsSpace(q[k]) && IsAllowed(q[k])
  {
    forall k | 0 <= k < |q| ensures !IsSpace(q[k]) && IsAllowed(q[k]) {
      assert k == 0 || k == 1 || k == 2 || k == 3 || k == 4 || k == 5 || k == 6 || k == 7;
    }
  }

  lemma QuotientRun(q: string, ts: seq<Token>, p: seq<Token>)
    requires |q| == 8 && q[0] == '5' && q[1] == '.' && q[2] == '7' && q[3] == '8' && q[4] == '/' && q[5] == '3' && q[6] == '.' && q[7] == '2'
    requires |ts| == 3 && ts[0] == Num(5.78) && ts[1] == Sym('/') && ts[2] == Num(3.2)
    requires |p| == 3 && p[0] == Num(5.78) && p[1] == Num(3.2) && p[2] == Sym('/')
    ensures Postfix(Lex(q)) == Ok(p)
    ensures Query(q) == Ok(Float(1.80625))
  {
    QuotientLex(q, ts);
    QuotientPostfix(ts, p);
    QuotientEval(p);
    QuotientAllowed(q);
    QueryOfAllowed(q);
  }

  /** `5.78/3.2` is 1.80625. */
  lemma Quotient()
    ensures Postfix(Lex("5.78/3.2")) == Ok([Num(5.78), Num(3.2), Sym('/')])
    ensures Query("5.78/3.2") == Ok(Float(1.80625))
  {
    QuotientRun("5.78/3.2", [Num(5.78), Sym('/'), Num(3.2)], [Num(5.78), Num(3.2), Sym('/')]);
  }

  lemma PrecedenceEnd4(q: string)
    requires |q| == 5 && q[4] == '3'
    ensures NumeralEnd(q, 4) == 5
  {
    assert DigitsEnd(q, 5) == 5;
    assert DigitsEnd(q, 4) == 5;
  }

  lemma PrecedenceLexeme4(q: string)
    requires |q| == 5 && q[3] == '*' && q[4] == '3'
    ensures LexFrom(q, 4, []) == [Num(3.0)] + LexFrom(q, 5, [])
  {
    PrecedenceEnd4(q);
    assert DecimalValue(q[4..5]) == 3.0 by {
      assert q[4..5] == "3";
      Literal3();
    }
    NumberLexeme(q, 4, 5, 3.0);
  }

  lemma PrecedenceLexeme3(q: string)
    requires |q| == 5 && q[2] == '5' && q[3] == '*' && q[4] == '3'
    ensures LexFrom(q, 3, []) == [Sym('*')] + LexFrom(q, 4, [])
  {
    SymbolLexeme(q, 3, '*');
  }

  lemma PrecedenceEnd2(q: string)
    requires |q| == 5 && q[2] == '5' && q[3] == '*'
    ensures NumeralEnd(q, 2) == 3
  {
    assert DigitsEnd(q, 3) == 3;
    assert DigitsEnd(q, 2) == 3;
  }

  lemma PrecedenceLexeme2(q: string)
    requires |q| == 5 && q[1] == '+' && q[2] == '5' && q[3] == '*'
    ensures LexFrom(q, 2, []) == [Num(5.0)] + LexFrom(q, 3, [])
  {
    PrecedenceEnd2(q);
    assert DecimalValue(q[2..3]) == 5.0 by {
      assert q[2..3] == "5";
      Literal5();
    }
    NumberLexeme(q, 2, 3, 5.0);
  }

  lemma PrecedenceLexeme1(q: string)
    requires |q| == 5 && q[0] == '7' && q[1] == '+' && q[2] == '5'
    ensures LexFrom(q, 1, []) == [Sym('+')] + LexFrom(q, 2, [])
  {
    SymbolLexeme(q, 1, '+');
  }

  lemma PrecedenceEnd0(q: string)
    requires |q| == 5 && q[0] == '7' && q[1] == '+'
    ensures NumeralEnd(q, 0) == 1
  {
    assert DigitsEnd(q, 1) == 1;
    assert DigitsEnd(q, 0) == 1;
  }

  lemma PrecedenceLexeme0(q: string)
    requires |q| == 5 && q[0] == '7' && q[1] == '+'
    ensures LexFrom(q, 0, []) == [Num(7.0)] + LexFrom(q, 1, [])
  {
    PrecedenceEnd0(q);
    assert DecimalValue(q[0..1]) == 7.0 by {
      assert q[0..1] == "7";
      Literal7();
    }
    NumberLexeme(q, 0, 1, 7.0);
  }

  lemma PrecedenceLex(q: string, ts: seq<Token>)
    requires |q| == 5 && q[0] == '7' && q[1] == '+' && q[2] == '5' && q[3] == '*' && q[4] == '3'
    requires |ts| == 5 && ts[0] == Num(7.0) && ts[1] == Sym('+') && ts[2] == Num(5.0) && ts[3] == Sym('*') && ts[4] == Num(3.0)
    ensures Lex(q) == ts
  {
    LexFromEnd(q, []);
    assert ts[5..] == [];
    assert LexFrom(q, 4, []) == ts[4..] by {
      PrecedenceLexeme4(q);
      DropCons(ts, 4);
    }
    assert LexFrom(q, 3, []) == ts[3..] by {
      PrecedenceLexeme3(q);
      DropCons(ts, 3);
    }
    assert LexFrom(q, 2, []) == ts[2..] by {
      PrecedenceLexeme2(q);
      DropCons(ts, 2);
    }
    assert LexFrom(q, 1, []) == ts[1..] by {
      PrecedenceLexeme1(q);
      DropCons(ts, 1);
    }
    assert LexFrom(q, 0, []) == ts[0..] by {
      PrecedenceLexeme0(q);
      DropCons(ts, 0);
    }
    assert ts[0..] == ts;
  }

  lemma PrecedenceStep0(out: seq<Token>)
    ensures Step(Shunting([], out), Num(7.0)) == Ok(Shunting([], out + [Num(7.0)]))
  {
  }

  lemma PrecedenceShunt0(ts: seq<Token>, p: seq<Token>)
    requires |ts| == 5 && ts[0] == Num(7.0)
    requires |p| == 5 && p[0] == Num(7.0)
    ensures ShuntFrom(Shunting([], p[..0]), ts[0..]) == ShuntFrom(Shunting([], p[..1]), ts[1..])
  {
    PrecedenceStep0(p[..0]);
    TakeExtend(p, 0, 1);
    assert p[0..1] == [Num(7.0)];
    ShuntAt(Shunting([], p[..0]), ts, 0);
  }

  lemma PrecedenceStep1(out: seq<Token>)
    ensures Step(Shunting([], out), Sym('+')) == Ok(Shunting(['+'], out))
  {
    PopEmpty(1);
    assert Symbols([]) == [];
    assert [] + ['+'] == ['+'];
    assert out + [] == out;
  }

  lemma PrecedenceShunt1(ts: seq<Token>, p: seq<Token>)
    requires |ts| == 5 && ts[1] == Sym('+')
    requires |p| == 5
    ensures ShuntFrom(Shunting([], p[..1]), ts[1..]) == ShuntFrom(Shunting(['+'], p[..1]), ts[2..])
  {
    PrecedenceStep1(p[..1]);
    ShuntAt(Shunting([], p[..1]), ts, 1);
  }

  lemma PrecedenceStep2(out: seq<Token>)
    ensures Step(Shunting(['+'], out), Num(5.0)) == Ok(Shunting(['+'], out + [Num(5.0)]))
  {
  }

  lemma PrecedenceShunt2(ts: seq<Token>, p: seq<Token>)
    requires |ts| == 5 && ts[2] == Num(5.0)
    requires |p| == 5 && p[1] == Num(5.0)
    ensures ShuntFrom(Shunting(['+'], p[..1]), ts[2..]) == ShuntFrom(Shunting(['+'], p[..2]), ts[3..])
  {
    PrecedenceStep2(p[..1]);
    TakeExtend(p, 1, 2);
    assert p[1..2] == [Num(5.0)];
    ShuntAt(Shunting(['+'], p[..1]), ts, 2);
  }

  lemma PrecedenceStep3(out: seq<Token>)
    ensures Step(Shunting(['+'], out), Sym('*')) == Ok(Shunting(['+', '*'], out))
  {
    PopPlus2();
    assert Symbols([]) == [];
    assert ['+'] + ['*'] == ['+', '*'];
    assert out + [] == out;
  }

  lemma PrecedenceShunt3(ts: seq<Token>, p: seq<Token>)
    requires |ts| == 5 && ts[3] == Sym('*')
    requires |p| == 5
    ensures ShuntFrom(Shunting(['+'], p[..2]), ts[3..]) == ShuntFrom(Shunting(['+', '*'], p[..2]), ts[4..])
  {
    PrecedenceStep3(p[..2]);
    ShuntAt(Shunting(['+'], p[..2]), ts, 3);
  }

  lemma PrecedenceStep4(out: seq<Token>)
    ensures Step(Shunting(['+', '*'], out), Num(3.0)) == Ok(Shunting(['+', '*'], out + [Num(3.0)]))
  {
  }

  lemma PrecedenceShunt4(ts: seq<Token>, p: seq<Token>)
    requires |ts| == 5 && ts[4] == Num(3.0)
    requires |p| == 5 && p[2] == Num(3.0)
    ensures ShuntFrom(Shunting(['+', '*'], p[..2]), ts[4..]) == ShuntFrom(Shunting(['+', '*'], p[..3]), ts[5..])
  {
    PrecedenceStep4(p[..2]);
    TakeExtend(p, 2, 3);
    assert p[2..3] == [Num(3.0)];
    ShuntAt(Shunting(['+', '*'], p[..2]), ts, 4);
  }

  lemma PrecedenceFlush(ts: seq<Token>, p: seq<Token>)
    requires |ts| == 5
    requires |p| == 5 && p[3] == Sym('*') && p[4] == Sym('+')
    ensures ShuntFrom(Shunting(['+', '*'], p[..3]), ts[5..]) == Ok(p)
  {
    assert ts[5..] == [];
    assert Reverse(['*']) == ['*'];
    assert Reverse(['+', '*']) == ['*', '+'] by {
      assert ['+', '*'][1..] == ['*'];
    }
    assert Symbols(['*', '+']) == [Sym('*'), Sym('+')];
    TakeExtend(p, 3, 5);
    assert p[3..5] == [Sym('*'), Sym('+')];
    assert p[..5] == p;
  }

  lemma PrecedencePostfix(ts: seq<Token>, p: seq<Token>)
    requires |ts| == 5 && ts[0] == Num(7.0) && ts[1] == Sym('+') && ts[2] == Num(5.0) && ts[3] == Sym('*') && ts[4] == Num(3.0)
    requires |p| == 5 && p[0] == Num(7.0) && p[1] == Num(5.0) && p[2] == Num(3.0) && p[3] == Sym('*') && p[4] == Sym('+')
    ensures Postfix(ts) == Ok(p)
  {
    assert p[..0] == [];
    assert ts[0..] == ts;
    PrecedenceShunt0(ts, p);
    PrecedenceShunt1(ts, p);
    PrecedenceShunt2(ts, p);
    PrecedenceShunt3(ts, p);
    PrecedenceShunt4(ts, p);
    PrecedenceFlush(ts, p);
  }

  lemma PrecedenceCalc0()
    ensures EvalStep([], Num(7.0)) == Continue([Float(7.0)])
  {
  }

  lemma PrecedenceCalc1()
    ensures EvalStep([Float(7.0)], Num(5.0)) == Continue([Float(7.0), Float(5.0)])
  {
  }

  lemma PrecedenceCalc2()
    ensures EvalStep([Float(7.0), Float(5.0)], Num(3.0)) == Continue([Float(7.0), Float(5.0), Float(3.0)])
  {
  }

  lemma PrecedenceCalc3()
    ensures EvalStep([Float(7.0), Float(5.0), Float(3.0)], Sym('*')) == Continue([Float(7.0), Float(15.0)])
  {
  }

  lemma PrecedenceCalc4()
    ensures EvalStep([Float(7.0), Float(15.0)], Sym('+')) == Continue([Float(22.0)])
  {
  }

  lemma PrecedenceEval(p: seq<Token>)
    requires |p| == 5 && p[0] == Num(7.0) && p[1] == Num(5.0) && p[2] == Num(3.0) && p[3] == Sym('*') && p[4] == Sym('+')
    ensures Eval(p) == Ok(Float(22.0))
  {
    assert p[0..] == p;
    assert Fold([], p[0..]) == Fold([Float(7.0)], p[1..]) by {
      PrecedenceCalc0();
      FoldAt([], p, 0);
    }
    assert Fold([Float(7.0)], p[1..]) == Fold([Float(7.0), Float(5.0)], p[2..]) by {
      PrecedenceCalc1();
      FoldAt([Float(7.0)], p, 1);
    }
    assert Fold([Float(7.0), Float(5.0)], p[2..]) == Fold([Float(7.0), Float(5.0), Float(3.0)], p[3..]) by {
      PrecedenceCalc2();
      FoldAt([Float(7.0), Float(5.0)], p, 2);
    }
    assert Fold([Float(7.0), Float(5.0), Float(3.0)], p[3..]) == Fold([Float(7.0), Float(15.0)], p[4..]) by {
      PrecedenceCalc3();
      FoldAt([Float(7.0), Float(5.0), Float(3.0)], p, 3);
    }
    assert Fold([Float(7.0), Float(15.0)], p[4..]) == Fold([Float(22.0)], p[5..]) by {
      PrecedenceCalc4();
      FoldAt([Float(7.0), Float(15.0)], p, 4);
    }
    assert p[5..] == [];
  }

  lemma PrecedenceAllowed(q: string)
    requires |q| == 5 && q[0] == '7' && q[1] == '+' && q[2] == '5' && q[3] == '*' && q[4] == '3'
    ensures forall k :: 0 <= k < |q| ==> !IsSpace(q[k]) && IsAllowed(q[k])
  {
    forall k | 0 <= k < |q| ensures !IsSpace(q[k]) && IsAllowed(q[k]) {
      assert k == 0 || k == 1 || k == 2 || k == 3 || k == 4;
    }
  }

  lemma PrecedenceRun(q: string, ts: seq<Token>, p: seq<Token>)
    requires |q| == 5 && q[0] == '7' && q[1] == '+' && q[2] == '5' && q[3] == '*' && q[4] == '3'
    requires |ts| == 5 && ts[0] == Num(7.0) && ts[1] == Sym('+') && ts[2] == Num(5.0) && ts[3] == Sym('*') && ts[4] == Num(3.0)
    requires |p| == 5 && p[0] == Num(7.0) && p[1] == Num(5.0) && p[2] == Num(3.0) && p[3] == Sym('*') && p[4] == Sym('+')
    ensures Postfix(Lex(q)) == Ok(p)
    ensures Query(q) == Ok(Float(22.0))
  {
    PrecedenceLex(q, ts);
    PrecedencePostfix(ts, p);
    PrecedenceEval(p);
    PrecedenceAllowed(q);
    QueryOfAllowed(q);
  }

  /** `7+5*3` converts to `7 5 3 * +` and evaluates to 22. */
  lemma Precedence()
    ensures Postfix(Lex("7+5*3")) == Ok([Num(7.0), Num(5.0), Num(3.0), Sym('*'), Sym('+')])
    ensures Query("7+5*3") == Ok(Float(22.0))
  {
    PrecedenceRun("7+5*3", [Num(7.0), Sym('+'), Num(5.0), Sym('*'), Num(3.0)], [Num(7.0), Num(5.0), Num(3.0), Sym('*'), Sym('+')]);
  }

  lemma DivisionByZeroEnd2(q: string)
    requires |q| == 3 && q[2] == '0'
    ensures NumeralEnd(q, 2) == 3
  {
    assert DigitsEnd(q, 3) == 3;
    assert DigitsEnd(q, 2) == 3;
  }

  lemma DivisionByZeroLexeme2(q: string)
    requires |q| == 3 && q[1] == '/' && q[2] == '0'
    ensures LexFrom(q, 2, []) == [Num(0.0)] + LexFrom(q, 3, [])
  {
    DivisionByZeroEnd2(q);
    assert DecimalValue(q[2..3]) == 0.0 by {
      assert q[2..3] == "0";
      Literal0();
    }
    NumberLexeme(q, 2, 3, 0.0);
  }

  lemma DivisionByZeroLexeme1(q: string)
    requires |q| == 3 && q[0] == '5' && q[1] == '/' && q[2] == '0'
    ensures LexFrom(q, 1, []) == [Sym('/')] + LexFrom(q, 2, [])
  {
    SymbolLexeme(q, 1, '/');
  }

  lemma DivisionByZeroEnd0(q: string)
    requires |q| == 3 && q[0] == '5' && q[1] == '/'
    ensures NumeralEnd(q, 0) == 1
  {
    assert DigitsEnd(q, 1) == 1;
    assert DigitsEnd(q, 0) == 1;
  }

  lemma DivisionByZeroLexeme0(q: string)
    requires |q| == 3 && q[0] == '5' && q[1] == '/'
    ensures LexFrom(q, 0, []) == [Num(5.0)] + LexFrom(q, 1, [])
  {
    DivisionByZeroEnd0(q);
    assert DecimalValue(q[0..1]) == 5.0 by {
      assert q[0..1] == "5";
      Literal5();
    }
    NumberLexeme(q, 0, 1, 5.0);
  }

  lemma DivisionByZeroLex(q: string, ts: seq<Token>)
    requires |q| == 3 && q[0] == '5' && q[1] == '/' && q[2] == '0'
    requires |ts| == 3 && ts[0] == Num(5.0) && ts[1] == Sym('/') && ts[2] == Num(0.0)
    ensures Lex(q) == ts
  {
    LexFromEnd(q, []);
    assert ts[3..] == [];
    assert LexFrom(q, 2, []) == ts[2..] by {
      DivisionByZeroLexeme2(q);
      DropCons(ts, 2);
    }
    assert LexFrom(q, 1, []) == ts[1..] by {
      DivisionByZeroLexeme1(q);
      DropCons(ts, 1);
    }
    assert LexFrom(q, 0, []) == ts[0..] by {
      DivisionByZeroLexeme0(q);
      DropCons(ts, 0);
    }
    assert ts[0..] == ts;
  }

  lemma DivisionByZeroStep0(out: seq<Token>)
    ensures Step(Shunting([], out), Num(5.0)) == Ok(Shunting([], out + [Num(5.0)]))
  {
  }

  lemma DivisionByZeroShunt0(ts: seq<Token>, p: seq<Token>)
    requires |ts| == 3 && ts[0] == Num(5.0)
    requires |p| == 3 && p[0] == Num(5.0)
    ensures ShuntFrom(Shunting([], p[..0]), ts[0..]) == ShuntFrom(Shunting([], p[..1]), ts[1..])
  {
    DivisionByZeroStep0(p[..0]);
    TakeExtend(p, 0, 1);
    assert p[0..1] == [Num(5.0)];
    ShuntAt(Shunting([], p[..0]), ts, 0);
  }

  lemma DivisionByZeroStep1(out: seq<Token>)
    ensures Step(Shunting([], out), Sym('/')) == Ok(Shunting(['/'], out))
  {
    PopEmpty(2);
    assert Symbols([]) == [];
    assert [] + ['/'] == ['/'];
    assert out + [] == out;
  }

  lemma DivisionByZeroShunt1(ts: seq<Token>, p: seq<Token>)
    requires |ts| == 3 && ts[1] == Sym('/')
    requires |p| == 3
    ensures ShuntFrom(Shunting([], p[..1]), ts[1..]) == ShuntFrom(Shunting(['/'], p[..1]), ts[2..])
  {
    DivisionByZeroStep1(p[..1]);
    ShuntAt(Shunting([], p[..1]), ts, 1);
  }

  lemma DivisionByZeroStep2(out: seq<Token>)
    ensures Step(Shunting(['/'], out), Num(0.0)) == Ok(Shunting(['/'], out + [Num(0.0)]))
  {
  }

  lemma DivisionByZeroShunt2(ts: seq<Token>, p: seq<Token>)
    requires |ts| == 3 && ts[2] == Num(0.0)
    requires |p| == 3 && p[1] == Num(0.0)
    ensures ShuntFrom(Shunting(['/'], p[..1]), ts[2..]) == ShuntFrom(Shunting(['/'], p[..2]), ts[3..])
  {
    DivisionByZeroStep2(p[..1]);
    TakeExtend(p, 1, 2);
    assert p[1..2] == [Num(0.0)];
    ShuntAt(Shunting(['/'], p[..1]), ts, 2);
  }

  lemma DivisionByZeroFlush(ts: seq<Token>, p: seq<Token>)
    requires |ts| == 3
    requires |p| == 3 && p[2] == Sym('/')
    ensures ShuntFrom(Shunting(['/'], p[..2]), ts[3..]) == Ok(p)
  {
    assert ts[3..] == [];
    assert Reverse(['/']) == ['/'];
    assert Symbols(['/']) == [Sym('/')];
    TakeExtend(p, 2, 3);
    assert p[2..3] == [Sym('/')];
    assert p[..3] == p;
  }

  lemma DivisionByZeroPostfix(ts: seq<Token>, p: seq<Token>)
    requires |ts| == 3 && ts[0] == Num(5.0) && ts[1] == Sym('/') && ts[2] == Num(0.0)
    requires |p| == 3 && p[0] == Num(5.0) && p[1] == Num(0.0) && p[2] == Sym('/')
    ensures Postfix(ts) == Ok(p)
  {
    assert p[..0] == [];
    assert ts[0..] == ts;
    DivisionByZeroShunt0(ts, p);
    DivisionByZeroShunt1(ts, p);
    DivisionByZeroShunt2(ts, p);
    DivisionByZeroFlush(ts, p);
  }

  lemma DivisionByZeroCalc0()
    ensures EvalStep([], Num(5.0)) == Continue([Float(5.0)])
  {
  }

  lemma DivisionByZeroCalc1()
    ensures EvalStep([Float(5.0)], Num(0.0)) == Continue([Float(5.0), Float(0.0)])
  {
  }

  lemma DivisionByZeroCalc2()
    ensures EvalStep([Float(5.0), Float(0.0)], Sym('/')) == Stop(Err(ZeroDivision))
  {
  }

  lemma DivisionByZeroEval(p: seq<Token>)
    requires |p| == 3 && p[0] == Num(5.0) && p[1] == Num(0.0) && p[2] == Sym('/')
    ensures Eval(p) == Err(ZeroDivision)
  {
    assert p[0..] == p;
    assert Fold([], p[0..]) == Fold([Float(5.0)], p[1..]) by {
      DivisionByZeroCalc0();
      FoldAt([], p, 0);
    }
    assert Fold([Float(5.0)], p[1..]) == Fold([Float(5.0), Float(0.0)], p[2..]) by {
      DivisionByZeroCalc1();
      FoldAt([Float(5.0)], p, 1);
    }
    assert Fold([Float(5.0), Float(0.0)], p[2..]) == Stop(Err(ZeroDivision)) by {
      DivisionByZeroCalc2();
      FoldAt([Float(5.0), Float(0.0)], p, 2);
    }
  }

  lemma DivisionByZeroAllowed(q: string)
    requires |q| == 3 && q[0] == '5' && q[1] == '/' && q[2] == '0'
    ensures forall k :: 0 <= k < |q| ==> !IsSpace(q[k]) && IsAllowed(q[k])
  {
    forall k | 0 <= k < |q| ensures !IsSpace(q[k]) && IsAllowed(q[k]) {
      assert k == 0 || k == 1 || k == 2;
    }
  }

  lemma DivisionByZeroRun(q: string, ts: seq<Token>, p: seq<Token>)
    requires |q| == 3 && q[0] == '5' && q[1] == '/' && q[2] == '0'
    requires |ts| == 3 && ts[0] == Num(5.0) && ts[1] == Sym('/') && ts[2] == Num(0.0)
    requires |p| == 3 && p[0] == Num(5.0) && p[1] == Num(0.0) && p[2] == Sym('/')
    ensures Postfix(Lex(q)) == Ok(p)
    ensures Query(q) == Err(ZeroDivision)
  {
    DivisionByZeroLex(q, ts);
    DivisionByZeroPostfix(ts, p);
    DivisionByZeroEval(p);
    DivisionByZeroAllowed(q);
    QueryOfAllowed(q);
  }

  /** `5/0` reports the division by zero. */
  lemma DivisionByZero()
    ensures Postfix(Lex("5/0")) == Ok([Num(5.0), Num(0.0), Sym('/')])
    ensures Query("5/0") == Err(ZeroDivision)
  {
    DivisionByZeroRun("5/0", [Num(5.0), Sym('/'), Num(0.0)], [Num(5.0), Num(0.0), Sym('/')]);
  }

  /** A letter makes the query invalid. */
  lemma InvalidLetter()
    ensures Query("5+a") == Err(InvalidInput)
  {
    assert IsRejected("5+a"[2]);
  }
}
