/** Newlines inside brackets, and a comma before the closing one. */
module ExprLayout {
  import opened ExprGrammar
  import opened ExprRoundTrip
  import opened ExprLadder

  /** What may close a list: newlines, and a comma before them. */
  function ListEnd(comma: bool, n: nat, rest: Toks): Toks {
    var ts := Newlines(n, T(RBracket, rest));
    if comma then T(Comma, ts) else ts
  }

  lemma ListEnds(comma: bool, n: nat, rest: Toks)
    ensures var z := ListEnd(comma, n, rest); ListTail(z) == GotItems(NoItems, rest) && Stops(1, z) && Head(z) != DotDot
  {
    SkipsNewlines(n, T(RBracket, rest));
    NewlinesStop(n, RBracket, rest);
  }

  lemma {:induction false} NewlinesStop(n: nat, close: Tok, rest: Toks)
    requires close == RBracket || close == RParen
    ensures var z := Newlines(n, T(close, rest));
      Stops(1, z) && (Head(z) == Newline || Head(z) == close) && SkipNewlines(z) == T(close, rest)
  {
    if n > 0 { NewlinesStop(n - 1, close, rest); }
  }

  function ElementsTo(items: Items, z: Toks): Toks {
    if items.NoItems? then z else T(Comma, PrintItems(items, z))
  }

  lemma {:induction false} ElementsRead(items: Items, z: Toks, rest: Toks)
    requires WellFormedItems(items, true) && ListTail(z) == GotItems(NoItems, rest) && Stops(1, z)
    ensures ListTail(ElementsTo(items, z)) == GotItems(items, rest)
    decreases items
  {
    if items.Item? {
      var after := ElementsTo(items.rest, z);
      Whole(items.e, after);
      Leads(items.e, 0, after);
      ElementsRead(items.rest, z, rest);
      assert PrintItems(items, z) == Spread(items.spread, Print(items.e, 0, after));
      ListTailRead(items.spread, Print(items.e, 0, after), items.e, after, items.rest, rest);
    }
  }

  /** The brackets of a list may stand on lines of their own, and a comma before the closing one. */
  lemma ListOverLines(items: Items, n: nat, comma: bool, m: nat, rest: Toks)
    requires items.Item? && WellFormedItems(items, true)
    ensures Primary(T(LBracket, Newlines(n, PrintItems(items, ListEnd(comma, m, rest))))) == Got(List(items), rest)
  {
    var z := ListEnd(comma, m, rest);
    var after := ElementsTo(items.rest, z);
    ListEnds(comma, m, rest);
    ElementsRead(items.rest, z, rest);
    Whole(items.e, after);
    Leads(items.e, 0, after);
    var ts := Print(items.e, 0, after);
    assert PrintItems(items, z) == Spread(items.spread, ts);
    ListRead(items.spread, ts, items.e, after, items.rest, rest);
    SkipsNewlines(n, Spread(items.spread, ts));
    AfterNewlines(n, Spread(items.spread, ts));
  }

  lemma AfterNewlines(n: nat, ts: Toks)
    requires SkipNewlines(Newlines(n, ts)) == SkipNewlines(ts) == ts
    ensures Primary(T(LBracket, Newlines(n, ts))) == Primary(T(LBracket, ts))
  {
  }

  function ArgumentsTo(args: Items, z: Toks): Toks {
    if args.NoItems? then z else T(Comma, PrintItems(args, z))
  }

  lemma {:induction false} ArgumentsRead(args: Items, n: nat, rest: Toks)
    requires args.Item? && WellFormedItems(args, false)
    ensures MoreArguments(PrintItems(args, Newlines(n, T(RParen, rest)))) == GotItems(args, rest)
    decreases args
  {
    var z := Newlines(n, T(RParen, rest));
    var after := ArgumentsTo(args.rest, z);
    NewlinesStop(n, RParen, rest);
    Whole(args.e, after);
    Leads(args.e, 0, after);
    if args.rest.Item? { ArgumentsRead(args.rest, n, rest); }
    assert PrintItems(args, z) == Print(args.e, 0, after) && args == Item(false, args.e, args.rest);
  }

  /** The parentheses of a call likewise. */
  lemma CallOverLines(f: Expr, args: Items, n: nat, m: nat, rest: Toks)
    requires args.Item? && WellFormedItems(args, false)
    ensures Suffixes(f, T(LParen, Newlines(n, PrintItems(args, Newlines(m, T(RParen, rest)))))) == Suffixes(Call(f, args), rest)
  {
    var after := ArgumentsTo(args.rest, Newlines(m, T(RParen, rest)));
    var ts := PrintItems(args, Newlines(m, T(RParen, rest)));
    ArgumentsRead(args, m, rest);
    NewlinesStop(m, RParen, rest);
    Leads(args.e, 0, after);
    assert ts == Print(args.e, 0, after);
    SkipsNewlines(n, ts);
    CallRead(f, Newlines(n, ts), args, rest);
  }

  /** But they may not end in a comma. */
  lemma NoCommaInCall(f: Expr, a: Expr, n: nat, rest: Toks)
    requires WellFormed(a)
    ensures Suffixes(f, T(LParen, Print(a, 0, T(Comma, Newlines(n, T(RParen, rest)))))) == Fail
  {
    var z := Newlines(n, T(RParen, rest));
    var ts := Print(a, 0, T(Comma, z));
    NewlinesStop(n, RParen, rest);
    Whole(a, T(Comma, z));
    Leads(a, 0, T(Comma, z));
    NothingThere(1, T(RParen, rest));
    assert MoreArguments(z) == FailItems;
    assert MoreArguments(ts) == FailItems;
    assert Head(ts) != RParen;
  }

  /** No expression begins with a closing parenthesis. */
  lemma {:induction false} NothingThere(l: nat, ts: Toks)
    requires 1 <= l <= 9 && Head(ts) == RParen
    ensures Parse(l, ts) == Fail
    decreases 10 - l
  {
    if l < 9 { NothingThere(l + 1, ts); }
  }

  // ---------- the other brackets, and lambdas ----------

  /** With a newline after the opening parenthesis it cannot be a list of parameters. */
  lemma ParenthesesOverLines(a: Expr, n: nat, rest: Toks)
    requires WellFormed(a) && n > 0
    ensures Primary(T(LParen, Newlines(n, Print(a, 0, T(RParen, rest))))) == Got(a, rest)
  {
    var ts := Print(a, 0, T(RParen, rest));
    Whole(a, T(RParen, rest));
    Leads(a, 0, T(RParen, rest));
    SkipsNewlines(n, ts);
    InParens(Newlines(n, ts), a, rest);
  }

  lemma InParens(ts: Toks, a: Expr, rest: Toks)
    requires Head(ts) == Newline && Parse(1, SkipNewlines(ts)) == Got(a, T(RParen, rest))
    ensures Primary(T(LParen, ts)) == Got(a, rest)
  {
    assert Parenthesized(ts) == Got(a, rest);
  }

  lemma IndexOverLines(a: Expr, i: Expr, n: nat, rest: Toks)
    requires WellFormed(i)
    ensures Suffixes(a, T(LBracket, Newlines(n, Print(i, 0, T(RBracket, rest))))) == Suffixes(Index(a, i), rest)
  {
    var ts := Print(i, 0, T(RBracket, rest));
    Whole(i, T(RBracket, rest));
    Leads(i, 0, T(RBracket, rest));
    SkipsNewlines(n, ts);
    IndexAfter(a, i, Newlines(n, ts), rest);
  }

  lemma IndexAfter(a: Expr, i: Expr, ts: Toks, rest: Toks)
    requires Parse(1, SkipNewlines(ts)) == Got(i, T(RBracket, rest))
    ensures Suffixes(a, T(LBracket, ts)) == Suffixes(Index(a, i), rest)
  {
  }

  /** The bounds and the step of a range may stand on lines of their own. */
  lemma RangeOverLines(a: Expr, b: Expr, c: Expr, n: nat, m: nat, rest: Toks)
    requires WellFormed(b) && WellFormed(c)
    ensures RangeTail(a, Newlines(n, Print(b, 0, T(RBracket, rest)))) == Got(Range(a, b), rest)
    ensures RangeTail(a, Newlines(n, Print(b, 0, T(DotDot, Newlines(m, Print(c, 0, T(RBracket, rest))))))) == Got(Stepped(a, b, c), rest)
  {
    var end := T(RBracket, rest);
    var step := Newlines(m, Print(c, 0, end));
    Whole(b, end);
    Leads(b, 0, end);
    SkipsNewlines(n, Print(b, 0, end));
    Whole(b, T(DotDot, step));
    Leads(b, 0, T(DotDot, step));
    SkipsNewlines(n, Print(b, 0, T(DotDot, step)));
    Whole(c, end);
    Leads(c, 0, end);
    SkipsNewlines(m, Print(c, 0, end));
  }

  /** The body of a lambda may stand on a line of its own. */
  lemma LambdaOverLines(x: string, b: Expr, n: nat, rest: Toks)
    requires WellFormed(b) && Stops(1, rest)
    ensures Primary(T(Id(x), T(FatArrow, Newlines(n, Print(b, 0, rest))))) == Got(Lambda([x], b), rest)
  {
    Whole(b, rest);
    Leads(b, 0, rest);
    SkipsNewlines(n, Print(b, 0, rest));
  }

  /** Before a brace a name with a capital is that of a record, and any other stands for itself. */
  lemma NameBeforeBrace(x: string, rest: Toks)
    ensures Primary(T(Id(x), T(LBrace, rest))) ==
      if |x| > 0 && 'A' <= x[0] <= 'Z' then Fail else Got(Ident(x), T(LBrace, rest))
  {
  }
}
