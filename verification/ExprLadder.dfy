/** Which operator binds tighter, on the bare tokens and with the operators by name. */
module ExprLadder {
  import opened ExprGrammar
  import opened ExprRoundTrip

  /** The rows of operators, the loosest first. */
  function Row(i: nat): set<Tok> {
    if i == 0 then {PipeApply}
    else if i == 1 then {Or}
    else if i == 2 then {And}
    else if i == 3 then {EqEq, NotEq, Less, Greater, LessEq, GreaterEq}
    else if i == 4 then {Plus, Minus}
    else if i == 5 then {Star, Slash, SlashSlash, Percent}
    else {}
  }

  predicate IsComparison(t: Tok) {
    t in {EqEq, NotEq, Less, Greater, LessEq, GreaterEq}
  }

  function Joined(op: Tok, a: Expr, b: Expr): Expr {
    if op == PipeApply then Pipe(a, b) else Binop(op, a, b)
  }

  /** No more of an expression can follow. */
  predicate Ends(ts: Toks) {
    && Head(ts) != PipeApply && !IsBinary(Head(ts))
    && Head(ts) !in {LParen, LBracket, Dot, FatArrow, LBrace}
    && !(Head(ts) == Newline && Head(Next(ts)) == PipeApply)
  }

  /** An operand: what stands alone, and everything else in parentheses. */
  function Operand(e: Expr, rest: Toks): Toks {
    if e.Literal? || e.Bool? || e.Ident? || e.Unit? || e.Placeholder? || e.List? || e.Range? || e.Stepped? then Bare(e, rest)
    else T(LParen, Bare(e, T(RParen, rest)))
  }

  function Newlines(n: nat, ts: Toks): Toks {
    if n == 0 then ts else T(Newline, Newlines(n - 1, ts))
  }

  /** An operator, newlines, and its right operand. */
  function Infix(op: Tok, n: nat, e: Expr, rest: Toks): Toks {
    T(op, Newlines(n, Operand(e, rest)))
  }

  // ---------- reading one operand, and one operator ----------

  lemma RowLevel(i: nat, op: Tok)
    requires op in Row(i)
    ensures i <= 5 && OpLevel(op) == i + 1 && (IsComparison(op) <==> i == 3) && Joined(op, Unit, Unit) == Join(op, Unit, Unit)
  {
  }

  lemma {:induction false} SkipsNewlines(n: nat, ts: Toks)
    ensures SkipNewlines(Newlines(n, ts)) == SkipNewlines(ts)
  {
    if n > 0 { SkipsNewlines(n - 1, ts); }
  }

  lemma OperandLeads(e: Expr, rest: Toks)
    requires WellFormed(e)
    ensures Operand(e, rest) == Print(e, 9, rest) && SkipNewlines(Operand(e, rest)) == Operand(e, rest)
    ensures Head(Operand(e, rest)) != Minus && Head(Operand(e, rest)) != Not
  {
    Leads(e, 9, rest);
  }

  /** What is read at a level is read at every lower one at which nothing follows. */
  lemma {:induction false} Down(l: nat, k: nat, ts: Toks, e: Expr, rest: Toks)
    requires 1 <= l <= k <= 9 && Parse(k, ts) == Got(e, rest) && Stops(l, rest) && (l <= 7 < k ==> Head(ts) != Minus && Head(ts) != Not)
    ensures Parse(l, ts) == Got(e, rest)
    decreases k - l
  {
    if l < k {
      StopsHigher(l, k - 1, rest);
      StepDown(k - 1, ts, e, rest);
      Down(l, k - 1, ts, e, rest);
    }
  }

  lemma StepDown(l: nat, ts: Toks, e: Expr, rest: Toks)
    requires 1 <= l < 9 && Parse(l + 1, ts) == Got(e, rest) && Stops(l, rest) && (l == 7 ==> Head(ts) != Minus && Head(ts) != Not)
    ensures Parse(l, ts) == Got(e, rest)
  {
    FirstOperand(l, ts, e, rest);
    ThenStops(l, e, rest);
  }

  lemma OperandRead(l: nat, e: Expr, rest: Toks)
    requires 1 <= l <= 9 && WellFormed(e) && Stops(l, rest)
    ensures Parse(l, Operand(e, rest)) == Got(e, rest)
  {
    OperandLeads(e, rest);
    StopsHigher(l, 9, rest);
    if Level(e) < 9 { InParentheses(e, rest); } else { AloneBack(e, rest); }
    Down(l, 9, Operand(e, rest), e, rest);
  }

  /** After the first operand of a row: the operator, newlines, and an operand of the next row. */
  lemma OneOperator(l: nat, ts: Toks, a: Expr, op: Tok, n: nat, ts1: Toks, b: Expr, rest: Toks)
    requires 1 <= l <= 6 && OpLevel(op) == l && Parse(l, ts) == Tail(l, a, T(op, Newlines(n, ts1)))
    requires SkipNewlines(ts1) == ts1 && Parse(l + 1, ts1) == Got(b, rest)
    ensures Parse(l, ts) == if l == 4 then Got(Join(op, a, b), rest) else Tail(l, Join(op, a, b), rest)
  {
    SkipsNewlines(n, ts1);
  }

  /** Two operands of a row, and what may go on in that row. */
  lemma Began(l: nat, a: Expr, op: Tok, n: nat, b: Expr, rest: Toks)
    requires 1 <= l <= 6 && OpLevel(op) == l && WellFormed(a) && WellFormed(b) && Stops(l + 1, rest)
    ensures Parse(l, Operand(a, Infix(op, n, b, rest))) == if l == 4 then Got(Join(op, a, b), rest) else Tail(l, Join(op, a, b), rest)
  {
    var more := Infix(op, n, b, rest);
    FirstOfRow(l, a, more);
    OperandRead(l + 1, b, rest);
    OperandLeads(b, rest);
    OneOperator(l, Operand(a, more), a, op, n, Operand(b, rest), b, rest);
  }

  lemma FirstOfRow(l: nat, a: Expr, more: Toks)
    requires 1 <= l <= 6 && WellFormed(a) && Stops(l + 1, more)
    ensures Parse(l, Operand(a, more)) == Tail(l, a, more)
  {
    OperandRead(l + 1, a, more);
    OperandLeads(a, more);
    FirstOperand(l, Operand(a, more), a, more);
  }

  /** Two operands of which the second ends the expression, or ends before a looser operator. */
  lemma TwoOperands(l: nat, a: Expr, op: Tok, n: nat, b: Expr, rest: Toks)
    requires 1 <= l <= 6 && OpLevel(op) == l && WellFormed(a) && WellFormed(b) && Stops(l, rest)
    ensures Parse(l, Operand(a, Infix(op, n, b, rest))) == Got(Join(op, a, b), rest)
  {
    StopsHigher(l, l + 1, rest);
    Began(l, a, op, n, b, rest);
    ThenStops(l, Join(op, a, b), rest);
  }

  lemma EndsStops(rest: Toks)
    requires Ends(rest)
    ensures Stops(1, rest)
  {
  }

  // ---------- the ladder ----------

  /** Of two operators from different rows the one further down the ladder binds tighter, whichever
      comes first and however many newlines follow them. */
  lemma TighterFirst(i: nat, j: nat, lo: Tok, hi: Tok, a: Expr, n: nat, b: Expr, m: nat, c: Expr, rest: Toks)
    requires i < j && lo in Row(i) && hi in Row(j) && WellFormed(a) && WellFormed(b) && WellFormed(c) && Ends(rest)
    ensures Parse(1, Operand(a, Infix(lo, n, b, Infix(hi, m, c, rest)))) == Got(Joined(lo, a, Joined(hi, b, c)), rest)
    ensures Parse(1, Operand(a, Infix(hi, n, b, Infix(lo, m, c, rest)))) == Got(Joined(lo, Joined(hi, a, b), c), rest)
  {
    RowLevel(i, lo);
    RowLevel(j, hi);
    EndsStops(rest);
    TightOnTheRight(i + 1, j + 1, lo, hi, a, n, b, m, c, rest);
    TightOnTheLeft(i + 1, j + 1, lo, hi, a, n, b, m, c, rest);
  }

  lemma TightOnTheRight(l: nat, k: nat, lo: Tok, hi: Tok, a: Expr, n: nat, b: Expr, m: nat, c: Expr, rest: Toks)
    requires 1 <= l < k <= 6 && OpLevel(lo) == l && OpLevel(hi) == k && WellFormed(a) && WellFormed(b) && WellFormed(c) && Stops(1, rest)
    ensures Parse(1, Operand(a, Infix(lo, n, b, Infix(hi, m, c, rest)))) == Got(Join(lo, a, Join(hi, b, c)), rest)
  {
    var right := Operand(b, Infix(hi, m, c, rest));
    var after := T(lo, Newlines(n, right));
    var ts := Operand(a, after);
    StopsHigher(1, k, rest);
    TwoOperands(k, b, hi, m, c, rest);
    OperandLeads(b, Infix(hi, m, c, rest));
    StopsHigher(1, l + 1, rest);
    Down(l + 1, k, right, Join(hi, b, c), rest);
    OperandLeads(a, after);
    OperandRead(l + 1, a, after);
    FirstOperand(l, ts, a, after);
    OneOperator(l, ts, a, lo, n, right, Join(hi, b, c), rest);
    StopsHigher(1, l, rest);
    ThenStops(l, Join(lo, a, Join(hi, b, c)), rest);
    Down(1, l, ts, Join(lo, a, Join(hi, b, c)), rest);
  }

  lemma TightOnTheLeft(l: nat, k: nat, lo: Tok, hi: Tok, a: Expr, n: nat, b: Expr, m: nat, c: Expr, rest: Toks)
    requires 1 <= l < k <= 6 && OpLevel(lo) == l && OpLevel(hi) == k && WellFormed(a) && WellFormed(b) && WellFormed(c) && Stops(1, rest)
    ensures Parse(1, Operand(a, Infix(hi, n, b, Infix(lo, m, c, rest)))) == Got(Join(lo, Join(hi, a, b), c), rest)
  {
    var after := Infix(lo, m, c, rest);
    var ts := Operand(a, Infix(hi, n, b, after));
    var ab := Join(hi, a, b);
    TwoOperands(k, a, hi, n, b, after);
    OperandLeads(a, Infix(hi, n, b, after));
    Down(l + 1, k, ts, ab, after);
    FirstOperand(l, ts, ab, after);
    LastOperand(l, ts, ab, lo, m, c, rest);
  }

  lemma LastOperand(l: nat, ts: Toks, a: Expr, op: Tok, n: nat, b: Expr, rest: Toks)
    requires 1 <= l <= 6 && OpLevel(op) == l && WellFormed(b) && Stops(1, rest) && Parse(l, ts) == Tail(l, a, Infix(op, n, b, rest))
    ensures Parse(1, ts) == Got(Join(op, a, b), rest)
  {
    StopsHigher(1, l + 1, rest);
    OperandRead(l + 1, b, rest);
    OperandLeads(b, rest);
    OneOperator(l, ts, a, op, n, Operand(b, rest), b, rest);
    StopsHigher(1, l, rest);
    ThenStops(l, Join(op, a, b), rest);
    Down(1, l, ts, Join(op, a, b), rest);
  }

  /** Operators of one row lean left. */
  lemma SameRowLeansLeft(i: nat, op: Tok, op2: Tok, a: Expr, n: nat, b: Expr, m: nat, c: Expr, rest: Toks)
    requires op in Row(i) && op2 in Row(i) && !IsComparison(op) && WellFormed(a) && WellFormed(b) && WellFormed(c) && Ends(rest)
    ensures Parse(1, Operand(a, Infix(op, n, b, Infix(op2, m, c, rest)))) == Got(Joined(op2, Joined(op, a, b), c), rest)
  {
    RowLevel(i, op);
    RowLevel(i, op2);
    EndsStops(rest);
    var l, after := i + 1, Infix(op2, m, c, rest);
    Began(l, a, op, n, b, after);
    LastOperand(l, Operand(a, Infix(op, n, b, after)), Join(op, a, b), op2, m, c, rest);
  }

  /** But a comparison is read with two operands, and a second one is not read. */
  lemma ComparisonsDoNotChain(op: Tok, op2: Tok, a: Expr, n: nat, b: Expr, rest: Toks)
    requires IsComparison(op) && IsComparison(op2) && WellFormed(a) && WellFormed(b)
    ensures Parse(1, Operand(a, Infix(op, n, b, T(op2, rest)))) == Got(Binop(op, a, b), T(op2, rest))
  {
    RowLevel(3, op);
    RowLevel(3, op2);
    var after := T(op2, rest);
    Began(4, a, op, n, b, after);
    ReadAbove(Operand(a, Infix(op, n, b, after)), Binop(op, a, b), after);
  }

  /** A prefix takes its operand before any operator does, and after every suffix. */
  lemma PrefixBetween(u: Tok, k: nat, a: Expr, op: Tok, n: nat, b: Expr, x: string, rest: Toks)
    requires u in {Minus, Not} && (op == PipeApply || IsBinary(op)) && WellFormed(a) && WellFormed(b) && Ends(rest)
    ensures Parse(1, T(u, Newlines(k, Operand(a, Infix(op, n, b, rest))))) == Got(Joined(op, Unop(u, a), b), rest)
    ensures Parse(1, T(u, Newlines(k, Operand(a, T(Dot, T(Id(x), rest)))))) == Got(Unop(u, Field(a, x)), rest)
  {
    EndsStops(rest);
    BinaryLevel(op);
    PrefixThenOperator(OpLevel(op), u, k, a, op, n, b, rest);
    PrefixThenField(u, k, a, x, rest);
  }

  lemma BinaryLevel(op: Tok)
    requires op == PipeApply || IsBinary(op)
    ensures 1 <= OpLevel(op) <= 6
  {
  }

  lemma PrefixThenField(u: Tok, k: nat, a: Expr, x: string, rest: Toks)
    requires u in {Minus, Not} && WellFormed(a) && Stops(1, rest)
    ensures Parse(1, T(u, Newlines(k, Operand(a, T(Dot, T(Id(x), rest)))))) == Got(Unop(u, Field(a, x)), rest)
  {
    var after := T(Dot, T(Id(x), rest));
    var ts := Operand(a, after);
    OperandLeads(a, after);
    OperandRead(9, a, after);
    SkipsNewlines(k, ts);
    FirstOperand(8, ts, a, after);
    assert Suffixes(a, after) == Suffixes(Field(a, x), rest);
    StopsHigher(1, 8, rest);
    ExprRoundTrip.ThenStops(8, Field(a, x), rest);
    StopsHigher(1, 7, rest);
    Down(7, 8, ts, Field(a, x), rest);
    Down(1, 7, T(u, Newlines(k, ts)), Unop(u, Field(a, x)), rest);
  }

  lemma PrefixThenOperator(l: nat, u: Tok, k: nat, a: Expr, op: Tok, n: nat, b: Expr, rest: Toks)
    requires u in {Minus, Not} && 1 <= l <= 6 && OpLevel(op) == l && WellFormed(a) && WellFormed(b) && Stops(1, rest)
    ensures Parse(1, T(u, Newlines(k, Operand(a, Infix(op, n, b, rest))))) == Got(Join(op, Unop(u, a), b), rest)
  {
    var after := Infix(op, n, b, rest);
    var all := T(u, Newlines(k, Operand(a, after)));
    PrefixRead(u, k, a, after);
    Down(l + 1, 7, all, Unop(u, a), after);
    FirstOperand(l, all, Unop(u, a), after);
    LastOperand(l, all, Unop(u, a), op, n, b, rest);
  }

  lemma PrefixRead(u: Tok, k: nat, a: Expr, after: Toks)
    requires u in {Minus, Not} && WellFormed(a) && Stops(7, after)
    ensures Parse(7, T(u, Newlines(k, Operand(a, after)))) == Got(Unop(u, a), after)
  {
    OperandLeads(a, after);
    OperandRead(7, a, after);
    SkipsNewlines(k, Operand(a, after));
  }

  lemma PipeOnNextLine(a: Expr, n: nat, b: Expr, rest: Toks)
    requires WellFormed(a) && WellFormed(b) && Stops(1, rest)
    ensures Parse(1, Operand(a, T(Newline, Infix(PipeApply, n, b, rest)))) == Got(Pipe(a, b), rest)
  {
    var after := Infix(PipeApply, n, b, rest);
    FirstOfRow(1, a, T(Newline, after));
    NewlineBeforePipe(a, after);
    LastOperand(1, Operand(a, T(Newline, after)), a, PipeApply, n, b, rest);
  }

  lemma NewlineBeforePipe(a: Expr, ts: Toks)
    requires Head(ts) == PipeApply
    ensures Tail(1, a, T(Newline, ts)) == Tail(1, a, ts)
  {
  }

  lemma LineEnds(a: Expr, rest: Toks)
    requires WellFormed(a) && Head(rest) == Newline && Head(Next(rest)) != PipeApply
    ensures Parse(1, Operand(a, rest)) == Got(a, rest)
  {
    OperandRead(1, a, rest);
  }

  /** A line may begin with a pipe, and with no other operator: there the expression has ended. */
  lemma LineBeginsWithPipe(a: Expr, op: Tok, n: nat, b: Expr, rest: Toks)
    requires WellFormed(a) && WellFormed(b) && Ends(rest)
    ensures Parse(1, Operand(a, T(Newline, Infix(PipeApply, n, b, rest)))) == Got(Pipe(a, b), rest)
    ensures IsBinary(op) ==>
      var more := T(Newline, Infix(op, n, b, rest)); Parse(1, Operand(a, more)) == Got(a, more)
  {
    EndsStops(rest);
    PipeOnNextLine(a, n, b, rest);
    if IsBinary(op) { LineEnds(a, T(Newline, Infix(op, n, b, rest))); }
  }
}
