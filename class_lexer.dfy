/** The input check and the scanner of `calculator_class.py`
    (`validate_input` and `parse_string`). */
module ClassLexer {
  import opened Common

  // ---------------------------------------------------------------------
  // Input validation

  /** `''.join(s.split())`: the input with every whitespace character removed. */
  function RemoveWhitespace(s: string): (r: string)
    ensures |r| <= |s|
    ensures forall k :: 0 <= k < |r| ==> !IsSpace(r[k])
    ensures forall c :: c in r <==> c in s && !IsSpace(c)
    ensures |s| == 1 ==> r == if IsSpace(s[0]) then [] else s
  {
    if s == [] then []
    else
      var rest := RemoveWhitespace(s[1..]);
      assert s == [s[0]] + s[1..];
      if IsSpace(s[0]) then rest else [s[0]] + rest
  }

  /** Removing whitespace works piecewise, so it keeps the order and the
      number of the other characters: with the one-character case of its
      contract this determines the result. */
  lemma {:induction false} RemoveWhitespaceAppend(a: string, b: string)
    ensures RemoveWhitespace(a + b) == RemoveWhitespace(a) + RemoveWhitespace(b)
  {
    if a == [] {
      assert a + b == b;
    } else {
      assert (a + b)[0] == a[0] && (a + b)[1..] == a[1..] + b;
      RemoveWhitespaceAppend(a[1..], b);
    }
  }

  /** Removing whitespace leaves text without whitespace unchanged. */
  lemma {:induction false} RemoveWhitespaceKeeps(s: string)
    requires forall k :: 0 <= k < |s| ==> !IsSpace(s[k])
    ensures RemoveWhitespace(s) == s
  {
    if s != [] {
      RemoveWhitespaceKeeps(s[1..]);
      assert s == [s[0]] + s[1..];
    }
  }

  /** The character class `[ \d.+\-*^/()]` of the validating regular expression. */
  predicate IsAllowed(c: char) {
    c == ' ' || IsDigit(c) || c == '.' || c == '+' || c == '-' || c == '*' || c == '^' || c == '/' || c == '(' || c == ')'
  }

  /** `validate_input`: the input is accepted exactly when each of its
      characters is whitespace, a digit, or one of `. + - * ^ / ( )`. */
  function ValidateInput(s: string): (ok: bool)
    ensures ok <==> forall k :: 0 <= k < |s| ==> IsSpace(s[k]) || IsAllowed(s[k])
  {
    var t := RemoveWhitespace(s);
    var ok := forall k :: 0 <= k < |t| ==> IsAllowed(t[k]);
    assert ok ==> forall k :: 0 <= k < |s| ==> IsSpace(s[k]) || IsAllowed(s[k]) by {
      if ok {
        forall k | 0 <= k < |s| && !IsSpace(s[k]) ensures IsAllowed(s[k]) {
          assert s[k] in t;
        }
      }
    }
    ok
  }

  // ---------------------------------------------------------------------
  // The scanner, as a state machine over the characters

  /** A character that yields a symbol token. */
  predicate IsSymbolChar(c: char) {
    IsPriorityKey(c) || c == ')'
  }

  /** The number accumulator: empty, or a decimal literal starting with a digit. */
  predicate IsAccumulator(acc: string) {
    acc == [] || (IsDigit(acc[0]) && IsDecimal(acc))
  }

  /** Emitting the pending number (`yield float(output)`). */
  function Flush(acc: string): (ts: seq<Token>)
    requires IsAccumulator(acc)
    ensures |ts| <= 1 && (ts == [] <==> acc == [])
    ensures acc != [] ==> ts == [Num(DecimalValue(acc))]
  {
    if acc == [] then [] else [Num(ParseFloat(acc).value)]
  }

  /** Whether the character extends the pending number: a digit, or a `.`
      while the pending text is all digits. */
  predicate Extends(acc: string, c: char) {
    IsDigit(c) || (c == '.' && IsDigits(acc))
  }

  /** The symbol token the scanner emits for `s[i]`, if any. */
  function SymbolAt(s: string, i: nat): (ts: seq<Token>)
    requires i < |s|
    ensures ts == [] || ts == [Sym(Classify(s, i))]
    ensures ts != [] <==> IsSymbolChar(s[i])
  {
    if IsSymbolChar(s[i]) then [Sym(Classify(s, i))] else []
  }

  lemma AccumulatorExtends(acc: string, c: char)
    requires IsAccumulator(acc) && Extends(acc, c)
    ensures IsAccumulator(acc + [c])
  {
    var a := acc + [c];
    var k := DotIndex(acc);
    DotIndexAppend(acc, c);
    if k < |acc| {
      assert a[..k] == acc[..k];
      assert DotIndex(a) == k;
      assert a[k + 1..] == acc[k + 1..] + [c];
    } else if c == '.' {
      assert DotIndex(a) == |acc|;
      assert a[..|acc|] == acc;
    } else {
      assert DotIndex(a) == |a|;
      assert a[..|a|] == a;
    }
  }

  lemma LexFromExtend(s: string, i: nat, acc: string)
    requires i < |s| && IsAccumulator(acc) && Extends(acc, s[i])
    ensures IsAccumulator(acc + [s[i]])
    ensures LexFrom(s, i, acc) == LexFrom(s, i + 1, acc + [s[i]])
  {
    AccumulatorExtends(acc, s[i]);
  }

  lemma LexFromBreak(s: string, i: nat, acc: string)
    requires i < |s| && IsAccumulator(acc) && !Extends(acc, s[i])
    ensures LexFrom(s, i, acc) == Flush(acc) + SymbolAt(s, i) + LexFrom(s, i + 1, [])
  {
  }

  /** The tokens the loop of `parse_string` yields from index `i` on, with
      `acc` the pending number text. */
  function LexFrom(s: string, i: nat, acc: string): seq<Token>
    requires i <= |s| && IsAccumulator(acc)
    decreases |s| - i
  {
    if i == |s| then Flush(acc)
    else if Extends(acc, s[i]) then
      AccumulatorExtends(acc, s[i]);
      LexFrom(s, i + 1, acc + [s[i]])
    else Flush(acc) + SymbolAt(s, i) + LexFrom(s, i + 1, [])
  }

  /** The token stream of `parse_string`, materialized. */
  function Lex(s: string): seq<Token> {
    LexFrom(s, 0, [])
  }

  /** `parse_string`: scans the input into number and symbol tokens. */
  method ParseString(s: string) returns (tokens: seq<Token>)
    ensures tokens == Lex(s)
  {
    var output := "";
    tokens := [];
    for idx := 0 to |s|
      invariant IsAccumulator(output)
      invariant tokens + LexFrom(s, idx, output) == Lex(s)
    {
      var element := s[idx];
      if IsDigit(element) || (element == '.' && IsDigits(output)) {
        LexFromExtend(s, idx, output);
        output := output + [element];
      } else {
        LexFromBreak(s, idx, output);
        ghost var before, pending := tokens, output;
        if output != "" {
          var f := ParseFloat(output);
          tokens := tokens + [Num(f.value)];
          output := "";
        }
        assert tokens == before + Flush(pending);
        if IsPriorityKey(element) || element == ')' {
          if element == '-' && (idx == 0 || (idx > 1 && IsPriorityKey(s[idx - 1]))) {
            element := '~';
          }
          tokens := tokens + [Sym(element)];
        }
        assert tokens == before + Flush(pending) + SymbolAt(s, idx);
        Associative(before, Flush(pending), SymbolAt(s, idx), LexFrom(s, idx + 1, output));
      }
    }
    if output != "" {
      var f := ParseFloat(output);
      tokens := tokens + [Num(f.value)];
    }
  }

  // ---------------------------------------------------------------------
  // A reference scanner by maximal munch

  /** The end of the run of digits that starts at `i`. */
  function DigitsEnd(s: string, i: nat): (j: nat)
    requires i <= |s|
    ensures i <= j <= |s|
    ensures forall k :: i <= k < j ==> IsDigit(s[k])
    ensures j < |s| ==> !IsDigit(s[j])
    decreases |s| - i
  {
    if i < |s| && IsDigit(s[i]) then DigitsEnd(s, i + 1) else i
  }

  /** The end of the longest literal `digits [. digits]` starting at `i`. */
  function NumeralEnd(s: string, i: nat): (j: nat)
    requires i <= |s|
    ensures i <= j <= |s|
  {
    var d := DigitsEnd(s, i);
    if d < |s| && s[d] == '.' then DigitsEnd(s, d + 1) else d
  }

  /** The tokens of `s` from `i` on, lexeme by lexeme: the longest literal
      `digits [. digits]` becomes one number, each operator or parenthesis one
      symbol, and every other character (a stray `.`) is skipped. */
  function RefLex(s: string, i: nat): seq<Token>
    requires i <= |s|
    decreases |s| - i
  {
    if i == |s| then []
    else if IsDigit(s[i]) then
      var j := NumeralEnd(s, i);
      assert j > i;
      [Num(DecimalValue(s[i..j]))] + RefLex(s, j)
    else SymbolAt(s, i) + RefLex(s, i + 1)
  }

  /** Once the next character does not extend the pending number, that
      number is emitted first and scanning goes on as from an empty one. */
  lemma FlushFirst(s: string, i: nat, acc: string)
    requires i <= |s| && IsAccumulator(acc)
    requires i < |s| ==> !Extends(acc, s[i]) && !IsDigit(s[i])
    ensures LexFrom(s, i, acc) == Flush(acc) + LexFrom(s, i, [])
  {
    if i < |s| {
      assert !Extends([], s[i]);
      Associative(Flush(acc), [], SymbolAt(s, i), LexFrom(s, i + 1, []));
    }
  }

  /** Inside a literal each character extends the text before it. */
  lemma LiteralCharExtends(s: string, i: nat, k: nat)
    requires i < |s| && IsDigit(s[i]) && i < k < NumeralEnd(s, i)
    ensures Extends(s[i..k], s[k])
  {
    var d := DigitsEnd(s, i);
    if k == d {
      assert IsDigits(s[i..k]);
    }
  }

  /** Scanning a literal from an empty accumulator reaches its end with the
      whole literal pending. */
  lemma {:induction false} ScanLiteral(s: string, i: nat, k: nat)
    requires i < |s| && IsDigit(s[i])
    requires i < k <= NumeralEnd(s, i)
    ensures IsAccumulator(s[i..k])
    ensures LexFrom(s, i, []) == LexFrom(s, k, s[i..k])
    decreases k - i
  {
    if k == i + 1 {
      LexFromExtend(s, i, []);
      assert [] + [s[i]] == s[i..k];
    } else {
      ScanLiteral(s, i, k - 1);
      ScanLiteralStep(s, i, k);
    }
  }

  lemma ScanLiteralStep(s: string, i: nat, k: nat)
    requires i < |s| && IsDigit(s[i]) && i + 1 < k <= NumeralEnd(s, i)
    requires IsAccumulator(s[i..k - 1]) && LexFrom(s, i, []) == LexFrom(s, k - 1, s[i..k - 1])
    ensures IsAccumulator(s[i..k])
    ensures LexFrom(s, i, []) == LexFrom(s, k, s[i..k])
  {
    var acc := s[i..k - 1];
    var next := acc + [s[k - 1]];
    assert next == s[i..k];
    assert Extends(acc, s[k - 1]) by {
      LiteralCharExtends(s, i, k - 1);
    }
    LexFromExtend(s, k - 1, acc);
    assert LexFrom(s, k - 1, acc) == LexFrom(s, k, next);
  }

  /** At the end of a literal the next character does not extend it. */
  lemma LiteralEnds(s: string, i: nat)
    requires i < |s| && IsDigit(s[i])
    ensures NumeralEnd(s, i) < |s| ==> !Extends(s[i..NumeralEnd(s, i)], s[NumeralEnd(s, i)])
  {
    var d, j := DigitsEnd(s, i), NumeralEnd(s, i);
    if j < |s| && j > d {
      assert s[i..j][d - i] == '.';
    }
  }

  /** The literal starting at `i` is followed by a character that is not a digit. */
  lemma LiteralFollowedByNonDigit(s: string, i: nat)
    requires i < |s| && IsDigit(s[i])
    ensures NumeralEnd(s, i) < |s| ==> !IsDigit(s[NumeralEnd(s, i)])
  {
  }

  /** Scanning from the start of a literal emits that literal's value. */
  lemma LexLiteral(s: string, i: nat)
    requires i < |s| && IsDigit(s[i])
    ensures LexFrom(s, i, []) == [Num(DecimalValue(s[i..NumeralEnd(s, i)]))] + LexFrom(s, NumeralEnd(s, i), [])
  {
    var j := NumeralEnd(s, i);
    ScanLiteral(s, i, j);
    LiteralEnds(s, i);
    LiteralFollowedByNonDigit(s, i);
    FlushFirst(s, j, s[i..j]);
  }

  lemma {:induction false} LexFromIsRefLex(s: string, i: nat)
    requires i <= |s|
    ensures LexFrom(s, i, []) == RefLex(s, i)
    decreases |s| - i
  {
    if i < |s| {
      if IsDigit(s[i]) {
        LexLiteral(s, i);
        LexFromIsRefLex(s, NumeralEnd(s, i));
      } else {
        LexFromIsRefLex(s, i + 1);
      }
    }
  }

  /** `parse_string` tokenizes by maximal munch: each longest literal
      `digits [. digits]` is one number, each operator or parenthesis is one
      symbol, a stray `.` is dropped. */
  lemma LexIsMaximalMunch(s: string)
    ensures Lex(s) == RefLex(s, 0)
  {
    LexFromIsRefLex(s, 0);
  }

  // ---------------------------------------------------------------------
  // The symbol tokens

  /** The symbol tokens of a token sequence, in order. */
  function SymbolTokens(ts: seq<Token>): (r: seq<Token>)
    ensures forall t :: t in r ==> t.Sym?
  {
    if ts == [] then [] else (if ts[0].Sym? then [ts[0]] else []) + SymbolTokens(ts[1..])
  }

  lemma {:induction false} SymbolTokensAppend(a: seq<Token>, b: seq<Token>)
    ensures SymbolTokens(a + b) == SymbolTokens(a) + SymbolTokens(b)
  {
    if a == [] {
      assert a + b == b;
    } else {
      assert (a + b)[1..] == a[1..] + b;
      SymbolTokensAppend(a[1..], b);
    }
  }

  /** One symbol for each operator or parenthesis of `s` from index `i` on. */
  function SymbolsFrom(s: string, i: nat): seq<Token>
    requires i <= |s|
    decreases |s| - i
  {
    if i == |s| then [] else SymbolAt(s, i) + SymbolsFrom(s, i + 1)
  }

  lemma {:induction false} LexFromSymbols(s: string, i: nat, acc: string)
    requires i <= |s| && IsAccumulator(acc)
    ensures SymbolTokens(LexFrom(s, i, acc)) == SymbolsFrom(s, i)
    decreases |s| - i
  {
    if i == |s| {
      LexFromEnd(s, acc);
      FlushHasNoSymbols(acc);
    } else if Extends(acc, s[i]) {
      AccumulatorExtends(acc, s[i]);
      LexFromSymbols(s, i + 1, acc + [s[i]]);
      SymbolsOfExtend(s, i, acc);
    } else {
      LexFromSymbols(s, i + 1, []);
      SymbolsOfBreak(s, i, acc);
    }
  }

  lemma ExtendingIsNoSymbol(acc: string, c: char)
    requires Extends(acc, c)
    ensures !IsSymbolChar(c)
  {
  }

  lemma SymbolsOfExtend(s: string, i: nat, acc: string)
    requires i < |s| && IsAccumulator(acc) && Extends(acc, s[i]) && IsAccumulator(acc + [s[i]])
    requires SymbolTokens(LexFrom(s, i + 1, acc + [s[i]])) == SymbolsFrom(s, i + 1)
    ensures SymbolTokens(LexFrom(s, i, acc)) == SymbolsFrom(s, i)
  {
    LexFromExtend(s, i, acc);
    ExtendingIsNoSymbol(acc, s[i]);
    assert SymbolsFrom(s, i) == [] + SymbolsFrom(s, i + 1);
    assert [] + SymbolsFrom(s, i + 1) == SymbolsFrom(s, i + 1);
  }

  lemma SymbolsOfBreak(s: string, i: nat, acc: string)
    requires i < |s| && IsAccumulator(acc) && !Extends(acc, s[i])
    requires SymbolTokens(LexFrom(s, i + 1, [])) == SymbolsFrom(s, i + 1)
    ensures SymbolTokens(LexFrom(s, i, acc)) == SymbolsFrom(s, i)
  {
    var rest := LexFrom(s, i + 1, []);
    LexFromBreak(s, i, acc);
    SymbolTokensAppend(Flush(acc) + SymbolAt(s, i), rest);
    SymbolTokensAppend(Flush(acc), SymbolAt(s, i));
    FlushHasNoSymbols(acc);
    SymbolAtSymbols(s, i);
    assert [] + SymbolAt(s, i) == SymbolAt(s, i);
  }

  lemma FlushHasNoSymbols(acc: string)
    requires IsAccumulator(acc)
    ensures SymbolTokens(Flush(acc)) == []
  {
  }

  lemma SymbolAtSymbols(s: string, i: nat)
    requires i < |s|
    ensures SymbolTokens(SymbolAt(s, i)) == SymbolAt(s, i)
  {
  }

  /** Every operator and parenthesis of the input yields exactly one symbol
      token, in input order, and no other character yields one. */
  lemma LexSymbols(s: string)
    ensures SymbolTokens(Lex(s)) == SymbolsFrom(s, 0)
  {
    LexFromSymbols(s, 0, []);
  }

  lemma {:induction false} SymbolTokensCount(ts: seq<Token>, x: Token)
    requires x.Sym?
    ensures multiset(SymbolTokens(ts))[x] == multiset(ts)[x]
  {
    if ts != [] {
      assert ts == [ts[0]] + ts[1..];
      SymbolTokensCount(ts[1..], x);
    }
  }

  lemma {:induction false} SymbolsFromCount(s: string, i: nat, c: char)
    requires i <= |s| && (c == '(' || c == ')')
    ensures multiset(SymbolsFrom(s, i))[Sym(c)] == multiset(s[i..])[c]
    decreases |s| - i
  {
    if i < |s| {
      assert s[i..] == [s[i]] + s[i + 1..];
      SymbolsFromCount(s, i + 1, c);
      SymbolAtCount(s, i, c);
      assert multiset(SymbolsFrom(s, i)) == multiset(SymbolAt(s, i)) + multiset(SymbolsFrom(s, i + 1));
    }
  }

  /** A parenthesis character yields its own token and nothing else yields it. */
  lemma SymbolAtCount(s: string, i: nat, c: char)
    requires i < |s| && (c == '(' || c == ')')
    ensures multiset(SymbolAt(s, i))[Sym(c)] == if s[i] == c then 1 else 0
  {
    if IsSymbolChar(s[i]) {
      assert Classify(s, i) == c <==> s[i] == c;
    }
  }

  /** A parenthesis token stands for a parenthesis character, one for one. */
  lemma LexParens(s: string, c: char)
    requires c == '(' || c == ')'
    ensures multiset(Lex(s))[Sym(c)] == multiset(s)[c]
  {
    LexSymbols(s);
    SymbolTokensCount(Lex(s), Sym(c));
    SymbolsFromCount(s, 0, c);
    assert s[0..] == s;
  }

  // ---------------------------------------------------------------------
  // Cutting the input after an operator or parenthesis

  /** The symbol at an index before `n` is classified alike in the prefix. */
  lemma SymbolAtPrefix(s: string, n: nat, j: nat)
    requires j < n <= |s|
    ensures SymbolAt(s[..n], j) == SymbolAt(s, j)
  {
  }

  lemma SplitExtends(s: string, n: nat, i: nat, acc: string)
    requires 0 < n <= |s| && IsSymbolChar(s[n - 1]) && i < n && IsAccumulator(acc)
    requires Extends(acc, s[i])
    ensures i + 1 < n && IsAccumulator(acc + [s[i]])
    ensures LexFrom(s, i, acc) == LexFrom(s, i + 1, acc + [s[i]])
    ensures LexFrom(s[..n], i, acc) == LexFrom(s[..n], i + 1, acc + [s[i]])
  {
    assert s[..n][i] == s[i];
    LexFromExtend(s, i, acc);
    LexFromExtend(s[..n], i, acc);
  }

  lemma SplitBreaks(s: string, n: nat, i: nat, acc: string)
    requires 0 < n <= |s| && i < n && IsAccumulator(acc)
    requires !Extends(acc, s[i])
    ensures LexFrom(s, i, acc) == Flush(acc) + SymbolAt(s, i) + LexFrom(s, i + 1, [])
    ensures LexFrom(s[..n], i, acc) == Flush(acc) + SymbolAt(s, i) + LexFrom(s[..n], i + 1, [])
  {
    assert s[..n][i] == s[i];
    LexFromBreak(s, i, acc);
    LexFromBreak(s[..n], i, acc);
    SymbolAtPrefix(s, n, i);
  }

  lemma {:induction false} LexFromSplit(s: string, n: nat, i: nat, acc: string)
    requires 0 < n <= |s| && IsSymbolChar(s[n - 1]) && i < n && IsAccumulator(acc)
    ensures LexFrom(s, i, acc) == LexFrom(s[..n], i, acc) + LexFrom(s, n, [])
    decreases n - i
  {
    if Extends(acc, s[i]) {
      SplitExtends(s, n, i, acc);
      LexFromSplit(s, n, i + 1, acc + [s[i]]);
    } else {
      SplitBreaks(s, n, i, acc);
      var head := Flush(acc) + SymbolAt(s, i);
      if i == n - 1 {
        LexFromEnd(s[..n], []);
        assert head + [] == head;
      } else {
        LexFromSplit(s, n, i + 1, []);
        Associative3(head, LexFrom(s[..n], i + 1, []), LexFrom(s, n, []));
      }
    }
  }

  lemma LexFromEnd(s: string, acc: string)
    requires IsAccumulator(acc)
    ensures LexFrom(s, |s|, acc) == Flush(acc)
  {
  }

  /** When the input is cut right after an operator or parenthesis, the
      tokens of the first part come first, unchanged. */
  lemma LexPrefix(s: string, n: nat)
    requires 0 < n <= |s| && IsSymbolChar(s[n - 1])
    ensures Lex(s) == Lex(s[..n]) + LexFrom(s, n, [])
  {
    LexFromSplit(s, n, 0, []);
  }
}
