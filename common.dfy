/** Definitions shared by both calculator versions: characters, the priority
    table, Python-style numeric values, the binary operations and the two
    operator-stack pop loops of the shunting-yard algorithm. */
module Common {

  /** A token of the infix expression: a number, or a one-character symbol
      (an operator, a parenthesis, or the synthesized unary minus `~`). */
  datatype Token = Num(value: real) | Sym(symbol: char)

  /** Errors. The first three are the message strings the source returns;
      the others are exceptions the source raises (or, for the last one, a
      power the model does not compute). */
  datatype Error =
    | InvalidInput          // "You provided an incorrect input. ..."
    | ZeroDivision          // "Zero division is not possible!"
    | NotSupported          // "The given operation is not supported:("
    | PopFromEmpty          // IndexError: pop from empty list
    | ZeroToNegativePower   // ZeroDivisionError raised by `0 ** negative`
    | FloatSyntax           // ValueError raised by `float(...)`
    | PowerNotModelled      // non-integral exponent of a nonzero base

  datatype Result<T> = Ok(value: T) | Err(error: Error)

  /** A Python number on the value stack: the int 0 that stands for a
      missing operand (and what is computed from ints only), or a float. */
  datatype Value = Int(i: int) | Float(r: real) {
    function Real(): real {
      match this
      case Int(i) => i as real
      case Float(r) => r
    }
  }

  predicate IsDigit(c: char) {
    '0' <= c <= '9'
  }

  /** Python's `str.isdigit()` on ASCII text: non-empty and only digits. */
  predicate IsDigits(s: string) {
    |s| > 0 && forall k :: 0 <= k < |s| ==> IsDigit(s[k])
  }

  /** Membership in the keys of the operator priority dictionary. */
  predicate IsPriorityKey(c: char) {
    c == '(' || c == '+' || c == '-' || c == '*' || c == '/' || c == '^' || c == '~'
  }

  predicate IsBinaryOperator(c: char) {
    c == '+' || c == '-' || c == '*' || c == '/' || c == '^'
  }

  /** The operator priority table. */
  function Priority(c: char): (p: nat)
    requires IsPriorityKey(c)
    ensures p == 0 <==> c == '('
    ensures p == 4 <==> c == '~'
    ensures IsBinaryOperator(c) ==> 1 <= p <= 3
    ensures (c == '+' || c == '-') <==> p == 1
    ensures (c == '*' || c == '/') <==> p == 2
    ensures c == '^' <==> p == 3
  {
    if c == '(' then 0
    else if c == '+' || c == '-' then 1
    else if c == '*' || c == '/' then 2
    else if c == '^' then 3
    else 4
  }

  /** The symbol the scanner emits for the operator or parenthesis at index
      `i`: a `-` becomes the unary minus `~` when it is the first character,
      or when it stands at an index greater than 1 right after a priority
      key (which includes `(`). */
  function Classify(s: string, i: nat): (c: char)
    requires i < |s|
    ensures c == s[i] || c == '~'
    ensures s[i] == '-' ==> (c == '~' <==> i == 0 || (i > 1 && IsPriorityKey(s[i - 1])))
    ensures s[i] != '-' ==> c == s[i]
    ensures i == 1 ==> c == s[i]
    ensures i > 0 && s[i - 1] == ')' ==> c == s[i]
  {
    if s[i] == '-' && (i == 0 || (i > 1 && IsPriorityKey(s[i - 1]))) then '~' else s[i]
  }

  /** Python's `str.isspace()` on ASCII: tab to carriage return, the four
      separators 0x1C-0x1F and the space. */
  predicate IsSpace(c: char) {
    9 <= c as int <= 13 || 28 <= c as int <= 32
  }

  // ---------------------------------------------------------------------
  // Decimal literals, as read by Python's `float()`

  predicate AllDigits(s: string) {
    forall k :: 0 <= k < |s| ==> IsDigit(s[k])
  }

  /** The index of the first `.` of `s`, or `|s|` when there is none. */
  function DotIndex(s: string): (k: nat)
    ensures k <= |s|
    ensures k < |s| ==> s[k] == '.'
    ensures forall j :: 0 <= j < k ==> s[j] != '.'
  {
    if s == [] then 0 else if s[0] == '.' then 0 else 1 + DotIndex(s[1..])
  }

  lemma {:induction false} DotIndexAppend(s: string, c: char)
    ensures DotIndex(s + [c]) == if DotIndex(s) < |s| then DotIndex(s) else if c == '.' then |s| else |s| + 1
  {
    if s != [] {
      assert (s + [c])[1..] == s[1..] + [c];
      DotIndexAppend(s[1..], c);
    }
  }

  function DigitsValue(s: string): nat {
    if s == [] then 0
    else 10 * DigitsValue(s[..|s| - 1]) + (if IsDigit(s[|s| - 1]) then s[|s| - 1] as int - '0' as int else 0)
  }

  function Pow10(n: nat): (r: nat)
    ensures r > 0
  {
    if n == 0 then 1 else 10 * Pow10(n - 1)
  }

  /** Digits with at most one `.` somewhere, and at least one digit. */
  predicate IsDecimal(s: string) {
    var k := DotIndex(s);
    && AllDigits(s[..k])
    && (k < |s| ==> AllDigits(s[k + 1..]))
    && |s| > (if k < |s| then 1 else 0)
  }

  /** The value of a decimal literal: its integer part plus its fraction. */
  function DecimalValue(s: string): real {
    var k := DotIndex(s);
    DigitsValue(s[..k]) as real
      + (if k < |s| then DigitsValue(s[k + 1..]) as real / Pow10(|s| - k - 1) as real else 0.0)
  }

  /** Python's `float(w)` for text made of digits, dots and signs: an
      optional sign followed by a decimal literal; anything else raises. */
  function ParseFloat(w: string): (r: Result<real>)
    ensures r.Ok? <==> IsDecimal(w) || (|w| > 0 && (w[0] == '+' || w[0] == '-') && IsDecimal(w[1..]))
    ensures r.Err? ==> r.error == FloatSyntax
    ensures IsDecimal(w) ==> r == Ok(DecimalValue(w))
    ensures |w| > 0 && w[0] == '-' && IsDecimal(w[1..]) ==> r == Ok(-DecimalValue(w[1..]))
    ensures |w| > 0 && w[0] == '+' && IsDecimal(w[1..]) ==> r == Ok(DecimalValue(w[1..]))
  {
    if |w| > 0 && (w[0] == '+' || w[0] == '-') && IsDecimal(w[1..]) then
      Ok(if w[0] == '-' then -DecimalValue(w[1..]) else DecimalValue(w[1..]))
    else if IsDecimal(w) then Ok(DecimalValue(w))
    else Err(FloatSyntax)
  }

  // ---------------------------------------------------------------------
  // Arithmetic

  function IntPow(a: int, n: nat): int {
    if n == 0 then 1 else a * IntPow(a, n - 1)
  }

  function RealPow(x: real, n: nat): real {
    if n == 0 then 1.0 else x * RealPow(x, n - 1)
  }

  lemma {:induction false} RealPowNonzero(x: real, n: nat)
    requires x != 0.0
    ensures RealPow(x, n) != 0.0
  {
    if n > 0 {
      RealPowNonzero(x, n - 1);
    }
  }

  lemma {:induction false} IntPowAsReal(a: int, n: nat)
    ensures IntPow(a, n) as real == RealPow(a as real, n)
  {
    if n > 0 {
      IntPowAsReal(a, n - 1);
    }
  }

  /** Python's `x ** y`. Two ints with a non-negative exponent give an int;
      otherwise the power is a float. An integral exponent is computed
      exactly; a zero base with a negative exponent raises. */
  function Power(x: Value, y: Value): (r: Result<Value>)
    ensures r.Ok? && r.value.Int? <==> x.Int? && y.Int? && y.i >= 0
    ensures r == Err(ZeroToNegativePower) <==> x.Real() == 0.0 && y.Real() < 0.0
    ensures y.Real() == 0.0 ==> r.Ok? && r.value.Real() == 1.0
    ensures r.Err? ==> r.error == ZeroToNegativePower || r.error == PowerNotModelled
  {
    if x.Int? && y.Int? && y.i >= 0 then
      Ok(Int(IntPow(x.i, y.i)))
    else
      var b, e := x.Real(), y.Real();
      if e == e.Floor as real then
        if e >= 0.0 then Ok(Float(RealPow(b, e.Floor)))
        else if b == 0.0 then Err(ZeroToNegativePower)
        else RealPowNonzero(b, -e.Floor); Ok(Float(1.0 / RealPow(b, -e.Floor)))
      else if b == 0.0 then
        if e > 0.0 then Ok(Float(0.0)) else Err(ZeroToNegativePower)
      else Err(PowerNotModelled)
  }

  /** Python's mixed arithmetic: int with int stays int, anything else is a float. */
  function Arith(op: char, x: Value, y: Value): (v: Value)
    requires op == '+' || op == '-' || op == '*'
  {
    if x.Int? && y.Int? then
      Int(if op == '+' then x.i + y.i else if op == '-' then x.i - y.i else x.i * y.i)
    else
      var a, b := x.Real(), y.Real();
      Float(if op == '+' then a + b else if op == '-' then a - b else a * b)
  }

  /** `execute_operation`: one binary operation by its symbol. */
  function ExecuteOperation(op: char, x: Value, y: Value): (r: Result<Value>)
    ensures !IsBinaryOperator(op) ==> r == Err(NotSupported)
    ensures (op == '+' || op == '-' || op == '*') ==> r.Ok? && (r.value.Int? <==> x.Int? && y.Int?)
    ensures op == '+' ==> r.Ok? && r.value.Real() == x.Real() + y.Real()
    ensures op == '-' ==> r.Ok? && r.value.Real() == x.Real() - y.Real()
    ensures op == '*' ==> r.Ok? && r.value.Real() == x.Real() * y.Real()
    ensures op == '/' ==> (r.Err? <==> y.Real() == 0.0)
    ensures op == '/' && r.Err? ==> r.error == ZeroDivision
    ensures op == '/' && r.Ok? ==> r.value.Float? && r.value.Real() * y.Real() == x.Real()
    ensures op == '^' ==> r == Power(x, y)
    ensures x.Float? && r.Ok? ==> r.value.Float?
    ensures y.Float? && r.Ok? ==> r.value.Float?
  {
    if (op == '+' || op == '-' || op == '*') then Ok(Arith(op, x, y))
    else if op == '/' then
      if y.Real() == 0.0 then Err(ZeroDivision) else Ok(Float(x.Real() / y.Real()))
    else if op == '^' then Power(x, y)
    else Err(NotSupported)
  }

  // ---------------------------------------------------------------------
  // The operator stack (top at the end of the sequence)

  predicate AllKeys(stack: seq<char>) {
    forall k :: 0 <= k < |stack| ==> IsPriorityKey(stack[k])
  }

  /** The invariant of the operator stack: an entry other than `(` has
      strictly higher priority than the entry directly below it. */
  predicate Ordered(stack: seq<char>)
    requires AllKeys(stack)
  {
    forall k :: 0 < k < |stack| && stack[k] != '(' ==> Priority(stack[k - 1]) < Priority(stack[k])
  }

  function Reverse<T>(s: seq<T>): (r: seq<T>)
    ensures |r| == |s|
  {
    if s == [] then [] else Reverse(s[1..]) + [s[0]]
  }

  lemma Associative3<T>(a: seq<T>, b: seq<T>, c: seq<T>)
    ensures a + (b + c) == a + b + c
  {
  }

  lemma Associative<T>(a: seq<T>, b: seq<T>, c: seq<T>, d: seq<T>)
    ensures a + b + c + d == a + (b + c + d)
  {
  }

  /** A non-empty sequence is its prefix followed by its last entry. */
  lemma SplitLast<T>(s: seq<T>)
    requires |s| > 0
    ensures s == s[..|s| - 1] + [s[|s| - 1]]
  {
  }

  /** Reversing a non-empty sequence brings its last entry to the front. */
  lemma ReverseLast<T>(s: seq<T>)
    requires |s| > 0
    ensures Reverse(s) == [s[|s| - 1]] + Reverse(s[..|s| - 1])
  {
    SplitLast(s);
    ReverseSnoc(s[..|s| - 1], s[|s| - 1]);
  }

  lemma {:induction false} ReverseSnoc<T>(s: seq<T>, x: T)
    ensures Reverse(s + [x]) == [x] + Reverse(s)
  {
    if s != [] {
      assert (s + [x])[1..] == s[1..] + [x];
      ReverseSnoc(s[1..], x);
    }
  }

  lemma ReverseCons<T>(x: T, s: seq<T>)
    ensures Reverse([x] + s) == Reverse(s) + [x]
  {
    assert ([x] + s)[1..] == s;
  }

  /** The loop `while stack and priority[stack[-1]] >= p: pop`: the entries
      popped (in pop order) and the stack left behind. */
  function PopWhileAtLeast(stack: seq<char>, p: nat): (r: (seq<char>, seq<char>))
    requires AllKeys(stack)
    ensures stack == r.1 + Reverse(r.0)
    ensures AllKeys(r.0) && AllKeys(r.1)
    ensures forall k :: 0 <= k < |r.0| ==> Priority(r.0[k]) >= p
    ensures r.1 == [] || Priority(r.1[|r.1| - 1]) < p
    decreases |stack|
  {
    if stack == [] || Priority(stack[|stack| - 1]) < p then ([], stack)
    else
      var top, below := stack[|stack| - 1], stack[..|stack| - 1];
      var rest := PopWhileAtLeast(below, p);
      ReverseCons(top, rest.0);
      assert stack == below + [top];
      ([top] + rest.0, rest.1)
  }

  /** The loop `while stack and stack[-1] != '(': pop` followed by one more
      `pop`: the entries popped above the nearest `(` (in pop order) and the
      stack below that `(`. The final pop fails when no `(` is left. */
  function PopToOpenParen(stack: seq<char>): (r: Result<(seq<char>, seq<char>)>)
    requires AllKeys(stack)
    ensures r.Ok? <==> '(' in stack
    ensures r.Err? ==> r.error == PopFromEmpty
    ensures r.Ok? ==> stack == r.value.1 + ['('] + Reverse(r.value.0)
    ensures r.Ok? ==> '(' !in r.value.0 && AllKeys(r.value.0) && AllKeys(r.value.1)
    decreases |stack|
  {
    if stack == [] then Err(PopFromEmpty)
    else
      var top, below := stack[|stack| - 1], stack[..|stack| - 1];
      assert stack == below + [top];
      if top == '(' then Ok(([], below))
      else
        match PopToOpenParen(below)
        case Err(e) => Err(e)
        case Ok(rest) =>
          ReverseCons(top, rest.0);
          Ok(([top] + rest.0, rest.1))
  }
}
