/** Worked examples of `calculator.py`: the docstring's conversion of
    `7+5*3`, and two queries with a `.` right before an operator, on which
    the string version parts from the class version. */
module StringExamples {
  import opened Common
  import opened ClassLexer
  import ClassPostfix
  import ClassEval
  import ClassCalculator
  import ClassExamples
  import opened StringCalculator
  import CalculatorVersions

  lemma DigitAlone(s: string, i: nat, st: Conversion, d: char)
    requires i < |s| && s[i] == d && IsDigit(d) && AllKeys(st.stack)
    requires i == |s| - 1 || (!IsDigit(s[i + 1]) && s[i + 1] != '.')
    ensures ConvertFrom(s, i, st) == ConvertFrom(s, i + 1, Conversion(st.stack, st.text + [d, ' ']))
  {
    assert DigitText(s, i) == [d, ' '];
    ConvertThen(s, i, st, Conversion(st.stack, st.text + [d, ' ']));
  }

  lemma DigitJoined(s: string, i: nat, st: Conversion, d: char)
    requires i + 1 < |s| && s[i] == d && IsDigit(d) && AllKeys(st.stack)
    requires IsDigit(s[i + 1]) || s[i + 1] == '.'
    ensures ConvertFrom(s, i, st) == ConvertFrom(s, i + 1, Conversion(st.stack, st.text + [d]))
  {
    assert DigitText(s, i) == [d];
    ConvertThen(s, i, st, Conversion(st.stack, st.text + [d]));
  }

  lemma DotWritten(s: string, i: nat, st: Conversion)
    requires i < |s| && s[i] == '.' && AllKeys(st.stack)
    ensures ConvertFrom(s, i, st) == ConvertFrom(s, i + 1, Conversion(st.stack, st.text + ['.']))
  {
    ConvertThen(s, i, st, Conversion(st.stack, st.text + ['.']));
  }

  lemma OperatorPushed(s: string, i: nat, st: Conversion, op: char)
    requires i < |s| && IsPriorityKey(s[i]) && s[i] != '(' && AllKeys(st.stack)
    requires Classify(s, i) == op
    ensures ConvertFrom(s, i, st) == ConvertFrom(s, i + 1, PushOperator(st, op))
  {
    ConvertThen(s, i, st, PushOperator(st, op));
  }

  lemma Converted(s: string, st: Conversion)
    requires ConvertFrom(s, 0, Conversion([], [])) == Ok(st)
    ensures Convert(s) == Ok(Strip(Flushed(st)))
  {
  }

  /** Stripping a text that starts with no whitespace and ends in one space. */
  lemma StripLastSpace(t: string)
    requires t != [] && !IsSpace(t[0]) && !IsSpace(t[|t| - 1])
    ensures Strip(t + " ") == t
  {
    assert TrimStart(t + " ") == t + " ";
    assert (t + " ")[..|t|] == t;
    assert TrimEnd(t) == t;
  }

  lemma FlushTwo(text: string, a: char, b: char)
    ensures Flushed(Conversion([a, b], text)) == text + [b, ' ', a, ' ']
  {
    assert Reverse([a, b]) == [b, a] by {
      assert [a, b][1..] == [b];
      assert Reverse([b]) == [b];
    }
    assert Spaced([b, a]) == [b, ' '] + Spaced([a]);
  }

  lemma FlushOne(text: string, a: char)
    ensures Flushed(Conversion([a], text)) == text + [a, ' ']
  {
    assert Reverse([a]) == [a];
    assert Spaced([a]) == [a, ' '] + Spaced([]);
  }

  lemma PrecedenceStep0(q: string)
    requires |q| == 5 && q[0] == '7' && q[1] == '+' && q[2] == '5' && q[3] == '*' && q[4] == '3'
    ensures ConvertFrom(q, 0, Conversion([], [])) == ConvertFrom(q, 1, Conversion([], "7 "))
  {
    DigitAlone(q, 0, Conversion([], []), '7');
    assert [] + ['7', ' '] == "7 ";
  }

  lemma PrecedenceStep1(q: string)
    requires |q| == 5 && q[0] == '7' && q[1] == '+' && q[2] == '5' && q[3] == '*' && q[4] == '3'
    ensures ConvertFrom(q, 1, Conversion([], "7 ")) == ConvertFrom(q, 2, Conversion(['+'], "7 "))
  {
    OperatorAtLower([], "7 ", '+');
    OperatorPushed(q, 1, Conversion([], "7 "), '+');
    assert [] + ['+'] == ['+'];
  }

  lemma PrecedenceStep2(q: string)
    requires |q| == 5 && q[0] == '7' && q[1] == '+' && q[2] == '5' && q[3] == '*' && q[4] == '3'
    ensures ConvertFrom(q, 2, Conversion(['+'], "7 ")) == ConvertFrom(q, 3, Conversion(['+'], "7 5 "))
  {
    DigitAlone(q, 2, Conversion(['+'], "7 "), '5');
    assert "7 " + ['5', ' '] == "7 5 ";
  }

  lemma PrecedenceStep3(q: string)
    requires |q| == 5 && q[0] == '7' && q[1] == '+' && q[2] == '5' && q[3] == '*' && q[4] == '3'
    ensures ConvertFrom(q, 3, Conversion(['+'], "7 5 ")) == ConvertFrom(q, 4, Conversion(['+', '*'], "7 5 "))
  {
    OperatorAtLower(['+'], "7 5 ", '*');
    OperatorPushed(q, 3, Conversion(['+'], "7 5 "), '*');
    assert ['+'] + ['*'] == ['+', '*'];
  }

  lemma PrecedenceStep4(q: string)
    requires |q| == 5 && q[0] == '7' && q[1] == '+' && q[2] == '5' && q[3] == '*' && q[4] == '3'
    ensures ConvertFrom(q, 4, Conversion(['+', '*'], "7 5 ")) == Ok(Conversion(['+', '*'], "7 5 3 "))
  {
    DigitAlone(q, 4, Conversion(['+', '*'], "7 5 "), '3');
    assert "7 5 " + ['3', ' '] == "7 5 3 ";
  }

  lemma PrecedenceSteps(q: string)
    requires |q| == 5 && q[0] == '7' && q[1] == '+' && q[2] == '5' && q[3] == '*' && q[4] == '3'
    ensures ConvertFrom(q, 0, Conversion([], [])) == Ok(Conversion(['+', '*'], "7 5 3 "))
  {
    PrecedenceStep0(q);
    PrecedenceStep1(q);
    PrecedenceStep2(q);
    PrecedenceStep3(q);
    PrecedenceStep4(q);
  }

  lemma PrecedenceFlush()
    ensures Strip(Flushed(Conversion(['+', '*'], "7 5 3 "))) == "7 5 3 * +"
  {
    FlushTwo("7 5 3 ", '+', '*');
    assert "7 5 3 " + ['*', ' ', '+', ' '] == "7 5 3 * +" + " ";
    StripLastSpace("7 5 3 * +");
  }

  lemma PrecedenceText(q: string)
    requires |q| == 5 && q[0] == '7' && q[1] == '+' && q[2] == '5' && q[3] == '*' && q[4] == '3'
    ensures Convert(q) == Ok("7 5 3 * +")
  {
    PrecedenceSteps(q);
    Converted(q, Conversion(['+', '*'], "7 5 3 "));
    PrecedenceFlush();
  }

  lemma PrecedenceWellFormed(q: string)
    requires |q| == 5 && q[0] == '7' && q[1] == '+' && q[2] == '5' && q[3] == '*' && q[4] == '3'
    ensures CalculatorVersions.WellFormed(q)
  {
    forall k | 0 <= k < |q| ensures !IsSpace(q[k]) && IsAllowed(q[k]) && q[k] != '.' {
      assert k == 0 || k == 1 || k == 2 || k == 3 || k == 4;
    }
  }

  /** The docstring's example: `7+5*3` becomes `7 5 3 * +`, which
      evaluates to 22. */
  lemma Precedence()
    ensures Convert("7+5*3") == Ok("7 5 3 * +")
    ensures Process("7+5*3") == Ok(Float(22.0))
  {
    PrecedenceText("7+5*3");
    PrecedenceWellFormed("7+5*3");
    CalculatorVersions.VersionsAgree("7+5*3");
    ClassExamples.Precedence();
  }

  lemma DotPlusSteps(q: string)
    requires |q| == 3 && q[0] == '3' && q[1] == '.' && q[2] == '+'
    ensures ConvertFrom(q, 0, Conversion([], [])) == Ok(Conversion(['+'], "3."))
  {
    var c0 := Conversion([], []);
    DigitJoined(q, 0, c0, '3');
    var c1 := Conversion([], "3");
    assert [] + ['3'] == "3";
    DotWritten(q, 1, c1);
    var c2 := Conversion([], "3.");
    assert "3" + ['.'] == "3.";
    OperatorAtLower([], "3.", '+');
    OperatorPushed(q, 2, c2, '+');
    assert [] + ['+'] == ['+'];
    var c3 := Conversion(['+'], "3.");
    assert ConvertFrom(q, 3, c3) == Ok(c3);
  }

  lemma DotPlusFlush()
    ensures Strip(Flushed(Conversion(['+'], "3."))) == "3.+"
  {
    FlushOne("3.", '+');
    assert "3." + ['+', ' '] == "3.+" + " ";
    StripLastSpace("3.+");
  }

  lemma DotPlusText(q: string)
    requires |q| == 3 && q[0] == '3' && q[1] == '.' && q[2] == '+'
    ensures Convert(q) == Ok("3.+")
  {
    DotPlusSteps(q);
    Converted(q, Conversion(['+'], "3."));
    DotPlusFlush();
  }

  /** The text `3.+` is one word, and `float()` refuses it. */
  lemma DotPlusEvaluate(p: string)
    requires |p| == 3 && p[0] == '3' && p[1] == '.' && p[2] == '+'
    ensures Evaluate(p) == Err(FloatSyntax)
  {
    WordsWord([], p);
    assert [] + p == p;
    assert IsNumberWord(p) by {
      assert p[1] == '.';
    }
    assert !IsDecimal(p) by {
      assert DotIndex(p) == 1 by {
        assert p[1..][0] == '.';
      }
      assert p[2..][0] == '+';
    }
  }

  /** The class version reads `3.` as the literal 3, then one `+`. */
  lemma ClassDotPlusLex(q: string)
    requires |q| == 3 && q[0] == '3' && q[1] == '.' && q[2] == '+'
    ensures ClassLexer.Lex(q) == [Num(3.0), Sym('+')]
  {
    assert DigitsEnd(q, 2) == 2;
    assert DigitsEnd(q, 1) == 1;
    assert DigitsEnd(q, 0) == 1;
    assert NumeralEnd(q, 0) == 2;
    assert DecimalValue(q[0..2]) == 3.0 by {
      assert q[0..2] == "3.";
      assert DotIndex("3.") == 1;
      assert "3."[..1] == "3";
      assert DigitsValue("3") == 3;
      assert "3."[2..] == [];
    }
    LexLiteral(q, 0);
    ClassExamples.SymbolLexeme(q, 2, '+');
    LexFromEnd(q, []);
  }

  lemma ClassDotPlusPostfix()
    ensures ClassPostfix.Postfix([Num(3.0), Sym('+')]) == Ok([Num(3.0), Sym('+')])
  {
    var ts := [Num(3.0), Sym('+')];
    var st1 := ClassPostfix.Shunting([], [Num(3.0)]);
    assert ClassPostfix.Step(ClassPostfix.Shunting([], []), ts[0]) == Ok(st1) by {
      assert [] + [Num(3.0)] == [Num(3.0)];
    }
    var st2 := ClassPostfix.Shunting(['+'], [Num(3.0)]);
    assert ClassPostfix.Step(st1, ts[1]) == Ok(st2) by {
      ClassExamples.PopEmpty(1);
      assert ClassPostfix.Symbols([]) == [];
      assert [] + ['+'] == ['+'];
      assert [Num(3.0)] + [] == [Num(3.0)];
    }
    assert ts[1..][1..] == [];
    assert ClassPostfix.ShuntFrom(st2, []) == Ok([Num(3.0), Sym('+')]) by {
      assert Reverse(['+']) == ['+'];
      assert ClassPostfix.Symbols(['+']) == [Sym('+')];
      assert [Num(3.0)] + [Sym('+')] == [Num(3.0), Sym('+')];
    }
  }

  lemma ClassDotPlusEval()
    ensures ClassEval.Eval([Num(3.0), Sym('+')]) == Ok(Float(3.0))
  {
    var p := [Num(3.0), Sym('+')];
    assert ClassEval.EvalStep([], p[0]) == ClassEval.Continue([Float(3.0)]);
    assert ExecuteOperation('+', Int(0), Float(3.0)) == Ok(Float(3.0));
    assert ClassEval.EvalStep([Float(3.0)], p[1]) == ClassEval.Continue([Float(3.0)]);
    assert p[1..][1..] == [];
  }

  lemma ClassDotPlus(q: string)
    requires |q| == 3 && q[0] == '3' && q[1] == '.' && q[2] == '+'
    ensures ClassCalculator.Query(q) == Ok(Float(3.0))
  {
    forall k | 0 <= k < |q| ensures !IsSpace(q[k]) && IsAllowed(q[k]) {
      assert k == 0 || k == 1 || k == 2;
    }
    ClassCalculator.QueryOfAllowed(q);
    ClassDotPlusLex(q);
    ClassDotPlusPostfix();
    ClassDotPlusEval();
  }

  /** `3.+` is written out as the single word `3.+`, on which `float()`
      raises; the class version reads `3.` as a number and returns 3. */
  lemma DotPlus()
    ensures Convert("3.+") == Ok("3.+")
    ensures Process("3.+") == Err(FloatSyntax)
    ensures ClassCalculator.Query("3.+") == Ok(Float(3.0))
  {
    DotPlusText("3.+");
    DotPlusEvaluate("3.+");
    ClassDotPlus("3.+");
  }
}
