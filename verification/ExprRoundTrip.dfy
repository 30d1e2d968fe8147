/** Reading back what was written gives the same expression and stops where it ends. */
module ExprRoundTrip {
  import opened ExprGrammar
  import opened ExprParser

  predicate SuffixAt(ts: Toks) {
    Head(ts) == LParen || Head(ts) == LBracket || (Head(ts) == Dot && Head(Next(ts)).Id?)
  }

  /** `ts` does not go on with an expression of level `l` that has ended before it. */
  predicate Stops(l: nat, ts: Toks) {
    && OpLevel(Head(ts)) < l && (l <= 8 ==> !SuffixAt(ts)) && (l <= 1 ==> BeforePipe(ts) == ts)
    && Head(ts) != FatArrow && Head(ts) != LBrace
  }

  /** How the parse at level `l` goes on once the first operand is there. */
  function Then(l: nat, e: Expr, ts: Toks): Parsed
    requires 1 <= l <= 9
  {
    if l <= 6 then Tail(l, e, ts) else if l == 8 then Suffixes(e, ts) else Got(e, ts)
  }

  lemma ThenStops(l: nat, e: Expr, ts: Toks)
    requires 1 <= l <= 9 && Stops(l, ts)
    ensures Then(l, e, ts) == Got(e, ts)
  {
  }

  /** The level whose operators may still follow. Comparisons do not chain. */
  function Inner(l: nat): nat {
    if l == 4 || l == 7 || l == 9 then l else l + 1
  }

  // ---------- how a written expression begins ----------

  predicate Begins(t: Tok, l: nat) {
    || t.Lit? || t == True || t == False || t.Id? || t == Dot || t == LParen || t == LBracket
    || (l <= 7 && (t == Minus || t == Not))
  }

  lemma {:induction false} Leads(e: Expr, l: nat, rest: Toks)
    requires WellFormed(e) && l <= 9
    ensures Begins(Head(Print(e, l, rest)), l) && SkipNewlines(Print(e, l, rest)) == Print(e, l, rest)
    decreases e
  {
    if Level(e) >= l {
      match e
      case Pipe(a, b) => Leads(a, 1, T(PipeApply, Print(b, 2, rest)));
      case Binop(op, a, b) =>
        Leads(a, if OpLevel(op) == 4 then 5 else OpLevel(op), T(op, Print(b, OpLevel(op) + 1, rest)));
      case Call(f, args) => Leads(f, 8, T(LParen, PrintItems(args, T(RParen, rest))));
      case Field(a, x) => Leads(a, 8, T(Dot, T(Id(x), rest)));
      case Index(a, i) => Leads(a, 8, T(LBracket, Print(i, 0, T(RBracket, rest))));
      case _ =>
    }
  }

  /** A name at the beginning is not followed by what could make it a parameter. */
  lemma {:induction false} Second(e: Expr, l: nat, rest: Toks)
    requires WellFormed(e) && l <= 9 && (e.Ident? ==> Head(rest) != RParen && Head(rest) != Comma)
    ensures var ts := Print(e, l, rest); Head(ts).Id? ==> Head(Next(ts)) != RParen && Head(Next(ts)) != Comma
    decreases e
  {
    if Level(e) >= l {
      match e
      case Pipe(a, b) => Second(a, 1, T(PipeApply, Print(b, 2, rest)));
      case Binop(op, a, b) =>
        Second(a, if OpLevel(op) == 4 then 5 else OpLevel(op), T(op, Print(b, OpLevel(op) + 1, rest)));
      case Call(f, args) => Second(f, 8, T(LParen, PrintItems(args, T(RParen, rest))));
      case Field(a, x) => Second(a, 8, T(Dot, T(Id(x), rest)));
      case Index(a, i) => Second(a, 8, T(LBracket, Print(i, 0, T(RBracket, rest))));
      case _ =>
    }
  }

  // ---------- reading it back ----------

  lemma Alone(ts: Toks)
    ensures Parse(9, ts) == Primary(ts)
  {
  }

  lemma StopsHigher(l: nat, k: nat, ts: Toks)
    requires l <= k && Stops(l, ts)
    ensures Stops(k, ts)
  {
  }

  /** What is read at one level is read at the next below, when nothing follows there. */
  lemma OneDown(l: nat, ts: Toks, e: Expr, rest: Toks)
    requires 1 <= l < 9 && Parse(l + 1, ts) == Got(e, rest) && Stops(1, rest) && (l == 7 ==> Head(ts) != Minus && Head(ts) != Not)
    ensures Parse(l, ts) == Got(e, rest)
  {
    FirstOperand(l, ts, e, rest);
    StopsHigher(1, l, rest);
    ThenStops(l, e, rest);
  }

  /** What stands alone is read at every level. */
  lemma {:induction false} Through(l: nat, ts: Toks, e: Expr, rest: Toks)
    requires 1 <= l <= 9 && Primary(ts) == Got(e, rest) && Stops(1, rest) && Head(ts) != Minus && Head(ts) != Not
    ensures Parse(l, ts) == Got(e, rest)
    decreases 10 - l
  {
    if l < 9 {
      Through(l + 1, ts, e, rest);
      OneDown(l, ts, e, rest);
    } else {
      Alone(ts);
    }
  }

  /** Parsing undoes writing: at the level it was written for, an expression is read back whole, and
      the parse goes on with what follows it. */
  lemma {:induction false} RoundTrip(l: nat, e: Expr, rest: Toks)
    requires 1 <= l <= 9 && WellFormed(e) && Stops(Inner(l), rest)
    ensures Parse(l, Print(e, l, rest)) == Then(l, e, rest)
    decreases e, if l <= Level(e) then 10 else 30
  {
    if l <= Level(e) {
      StopsHigher(Inner(l), Inner(Level(e)), rest);
      AtItsLevel(Level(e), e, rest);
      Leads(e, Level(e), rest);
      Climb(l, Level(e), Bare(e, rest), e, rest);
    } else {
      StopsHigher(Inner(l), 9, rest);
      InParentheses(e, rest);
      Climb(l, 9, T(LParen, Bare(e, T(RParen, rest))), e, rest);
    }
  }

  /** What is read at a level `k` is the first operand at every level below. */
  lemma {:induction false} Climb(l: nat, k: nat, ts: Toks, e: Expr, rest: Toks)
    requires 1 <= l <= k <= 9 && Stops(Inner(l), rest) && (l <= 7 < k ==> Head(ts) != Minus && Head(ts) != Not)
    requires Parse(k, ts) == Then(k, e, rest)
    ensures Parse(l, ts) == Then(l, e, rest)
    decreases k - l
  {
    if l < k {
      InnerHigher(l, rest);
      Climb(l + 1, k, ts, e, rest);
      OneLevelUp(l, ts, e, rest);
    }
  }

  lemma InnerHigher(l: nat, rest: Toks)
    requires 1 <= l < 9 && Stops(Inner(l), rest)
    ensures Stops(Inner(l + 1), rest)
  {
    StopsHigher(Inner(l), Inner(l + 1), rest);
  }

  lemma OneLevelUp(l: nat, ts: Toks, e: Expr, rest: Toks)
    requires 1 <= l < 9 && Stops(Inner(l), rest) && Parse(l + 1, ts) == Then(l + 1, e, rest)
    requires l == 7 ==> Head(ts) != Minus && Head(ts) != Not
    ensures Parse(l, ts) == Then(l, e, rest)
  {
    if l != 8 {
      StopsHigher(Inner(l), l + 1, rest);
      ThenStops(l + 1, e, rest);
    }
    FirstOperand(l, ts, e, rest);
  }

  lemma FirstOperand(l: nat, ts: Toks, e: Expr, rest: Toks)
    requires 1 <= l < 9 && Parse(l + 1, ts) == Got(e, rest) && (l == 7 ==> Head(ts) != Minus && Head(ts) != Not)
    ensures Parse(l, ts) == Then(l, e, rest)
  {
  }

  lemma {:induction false} InParentheses(e: Expr, rest: Toks)
    requires WellFormed(e) && Level(e) < 9 && Stops(9, rest)
    ensures Parse(9, Print(e, 9, rest)) == Got(e, rest)
    decreases e, 20
  {
    var inner := T(RParen, rest);
    var ts := Print(e, 0, inner);
    Whole(e, inner);
    Leads(e, 0, inner);
    Second(e, 0, inner);
    ParenRead(ts, e, rest);
    assert Print(e, 9, rest) == T(LParen, ts);
  }

  lemma ParenRead(ts: Toks, e: Expr, rest: Toks)
    requires Parse(1, ts) == Got(e, T(RParen, rest)) && SkipNewlines(ts) == ts && Head(ts) != RParen
    requires Head(ts).Id? ==> Head(Next(ts)) != RParen && Head(Next(ts)) != Comma
    ensures Parse(9, T(LParen, ts)) == Got(e, rest)
  {
    assert !ParamsFollow(ts);
    assert Parenthesized(ts) == Got(e, rest);
  }

  /** An expression of any level where a whole expression is read. */
  lemma {:induction false} Whole(e: Expr, rest: Toks)
    requires WellFormed(e) && Stops(1, rest)
    ensures Parse(1, Print(e, 0, rest)) == Got(e, rest)
    decreases e, 15
  {
    if e.Lambda? {
      LambdaBack(e, rest);
    } else {
      RoundTrip(1, e, rest);
      ThenStops(1, e, rest);
    }
  }

  lemma {:induction false} AtItsLevel(l: nat, e: Expr, rest: Toks)
    requires 1 <= l <= 9 && Level(e) == l && WellFormed(e) && Stops(Inner(l), rest)
    ensures Parse(l, Bare(e, rest)) == Then(l, e, rest)
    decreases e, 4
  {
    if l == 9 {
      AloneBack(e, rest);
    } else if l == 8 {
      SuffixBack(e, rest);
    } else if l == 7 {
      PrefixBack(e, rest);
    } else if e.Pipe? {
      JoinBack(l, PipeApply, e.lhs, e.rhs, rest);
    } else if l == 4 {
      CompareBack(e.op, e.lhs, e.rhs, rest);
    } else {
      JoinBack(l, e.op, e.lhs, e.rhs, rest);
    }
  }

  lemma {:induction false} PrefixBack(e: Expr, rest: Toks)
    requires e.Unop? && WellFormed(e) && Stops(7, rest)
    ensures Parse(7, Print(e, 7, rest)) == Got(e, rest)
    decreases e, 1
  {
    RoundTrip(7, e.arg, rest);
    Leads(e.arg, 7, rest);
  }

  lemma {:induction false} SuffixBack(e: Expr, rest: Toks)
    requires Level(e) == 8 && WellFormed(e) && Stops(9, rest)
    ensures Parse(8, Bare(e, rest)) == Suffixes(e, rest)
    decreases e, 2
  {
    if e.Call? {
      CallBack(e, rest);
    } else if e.Index? {
      IndexBack(e, rest);
    } else {
      RoundTrip(8, e.base, T(Dot, T(Id(e.name), rest)));
    }
  }

  lemma {:induction false} CallBack(e: Expr, rest: Toks)
    requires e.Call? && WellFormed(e)
    ensures Parse(8, Bare(e, rest)) == Suffixes(e, rest)
    decreases e, 1
  {
    var ts := PrintItems(e.args, T(RParen, rest));
    RoundTrip(8, e.callee, T(LParen, ts));
    ArgumentsBack(e.args, rest);
    CallRead(e.callee, ts, e.args, rest);
  }

  lemma CallRead(f: Expr, ts: Toks, args: Items, rest: Toks)
    requires Arguments(SkipNewlines(ts)) == GotItems(args, rest)
    ensures Suffixes(f, T(LParen, ts)) == Suffixes(Call(f, args), rest)
  {
  }

  lemma {:induction false} IndexBack(e: Expr, rest: Toks)
    requires e.Index? && WellFormed(e)
    ensures Parse(8, Bare(e, rest)) == Suffixes(e, rest)
    decreases e, 1
  {
    var ts := Print(e.index, 0, T(RBracket, rest));
    RoundTrip(8, e.base, T(LBracket, ts));
    Whole(e.index, T(RBracket, rest));
    Leads(e.index, 0, T(RBracket, rest));
    IndexRead(e.base, ts, e.index, rest);
  }

  lemma IndexRead(a: Expr, ts: Toks, i: Expr, rest: Toks)
    requires Parse(1, ts) == Got(i, T(RBracket, rest)) && SkipNewlines(ts) == ts
    ensures Suffixes(a, T(LBracket, ts)) == Suffixes(Index(a, i), rest)
  {
  }

  lemma {:induction false} AloneBack(e: Expr, rest: Toks)
    requires Level(e) == 9 && WellFormed(e) && Stops(9, rest)
    ensures Primary(Bare(e, rest)) == Got(e, rest)
    decreases e, 3
  {
    match e
    case List(items) => ListBack(items, rest);
    case Range(_, _) => RangeBack(e, rest);
    case Stepped(_, _, _) => RangeBack(e, rest);
    case Unit => assert Parenthesized(T(RParen, rest)) == Got(Unit, rest);
    case _ =>
  }

  /** An operator that leans left: the left operand may be of the same level. */
  lemma {:induction false} JoinBack(l: nat, op: Tok, a: Expr, b: Expr, rest: Toks)
    requires 1 <= l <= 6 && l != 4 && OpLevel(op) == l && WellFormed(a) && WellFormed(b) && Stops(l + 1, rest)
    ensures Parse(l, Print(a, l, T(op, Print(b, l + 1, rest)))) == Tail(l, Join(op, a, b), rest)
    decreases Join(op, a, b), 0
  {
    var after := T(op, Print(b, l + 1, rest));
    RoundTrip(l, a, after);
    Operand(l + 1, b, rest);
    TailGoesOn(l, op, a, b, Print(b, l + 1, rest), rest);
  }

  lemma TailGoesOn(l: nat, op: Tok, a: Expr, b: Expr, ts: Toks, rest: Toks)
    requires 1 <= l <= 6 && l != 4 && OpLevel(op) == l && Parse(l + 1, SkipNewlines(ts)) == Got(b, rest)
    ensures Tail(l, a, T(op, ts)) == Tail(l, Join(op, a, b), rest)
  {
  }

  /** An operand that ends where nothing of its level follows. */
  lemma {:induction false} Operand(l: nat, e: Expr, rest: Toks)
    requires 1 <= l <= 9 && WellFormed(e) && Stops(l, rest)
    ensures Parse(l, SkipNewlines(Print(e, l, rest))) == Got(e, rest)
    decreases e, 40
  {
    Leads(e, l, rest);
    RoundTrip(l, e, rest);
    ThenStops(l, e, rest);
  }

  /** A comparison: both operands bind tighter. */
  lemma {:induction false} CompareBack(op: Tok, a: Expr, b: Expr, rest: Toks)
    requires OpLevel(op) == 4 && WellFormed(a) && WellFormed(b) && Stops(4, rest)
    ensures Parse(4, Print(a, 5, T(op, Print(b, 5, rest)))) == Tail(4, Binop(op, a, b), rest)
    decreases Binop(op, a, b), 0
  {
    var after := T(op, Print(b, 5, rest));
    Operand(5, a, after);
    Leads(a, 5, after);
    StopsHigher(4, 5, rest);
    Operand(5, b, rest);
    ComparisonRead(Print(a, 5, after), op, a, b, Print(b, 5, rest), rest);
    ThenStops(4, Binop(op, a, b), rest);
  }

  // ---------- arguments, lists, ranges, lambdas ----------

  lemma {:induction false} ArgumentsBack(args: Items, rest: Toks)
    requires WellFormedItems(args, false)
    ensures Arguments(SkipNewlines(PrintItems(args, T(RParen, rest)))) == GotItems(args, rest)
    decreases args, 1
  {
    if args.Item? {
      ArgumentBack(args, rest);
      Leads(args.e, 0, AfterArgument(args.rest, rest));
    }
  }

  function AfterArgument(args: Items, rest: Toks): Toks {
    if args.NoItems? then T(RParen, rest) else T(Comma, PrintItems(args, T(RParen, rest)))
  }

  lemma ArgumentRead(ts: Toks, e: Expr, after: Toks, args: Items, rest: Toks)
    requires Parse(1, ts) == Got(e, after) && SkipNewlines(ts) == ts
    requires if args.NoItems? then after == T(RParen, rest)
             else Head(after) == Comma && MoreArguments(Next(after)) == GotItems(args, rest)
    ensures MoreArguments(ts) == GotItems(Item(false, e, args), rest)
  {
    assert SkipNewlines(after) == after;
  }

  lemma {:induction false} ArgumentBack(args: Items, rest: Toks)
    requires args.Item? && WellFormedItems(args, false)
    ensures MoreArguments(PrintItems(args, T(RParen, rest))) == GotItems(args, rest)
    decreases args, 0
  {
    var after := AfterArgument(args.rest, rest);
    Whole(args.e, after);
    Leads(args.e, 0, after);
    if args.rest.Item? { ArgumentBack(args.rest, rest); }
    ArgumentRead(Print(args.e, 0, after), args.e, after, args.rest, rest);
    assert args == Item(false, args.e, args.rest) && PrintItems(args, T(RParen, rest)) == Print(args.e, 0, after);
  }

  /** What follows an element in a list. */
  function AfterElement(items: Items, rest: Toks): Toks {
    if items.NoItems? then T(RBracket, rest) else T(Comma, PrintItems(items, T(RBracket, rest)))
  }

  function Spread(spread: bool, ts: Toks): Toks {
    if spread then T(Ellipsis, ts) else ts
  }

  lemma PrintFirst(items: Items, rest: Toks)
    requires items.Item?
    ensures PrintItems(items, T(RBracket, rest)) == Spread(items.spread, Print(items.e, 0, AfterElement(items.rest, rest)))
  {
  }

  lemma ListRead(spread: bool, ts: Toks, first: Expr, after: Toks, items: Items, rest: Toks)
    requires Parse(1, ts) == Got(first, after) && SkipNewlines(ts) == ts && Head(ts) != RBracket && Head(ts) != Ellipsis
    requires Head(after) != DotDot && ListTail(after) == GotItems(items, rest)
    ensures Primary(T(LBracket, Spread(spread, ts))) == Got(List(Item(spread, first, items)), rest)
  {
    var all := Spread(spread, ts);
    assert SkipNewlines(all) == all && Head(all) != RBracket;
    assert Bracketed(all) == Got(List(Item(spread, first, items)), rest);
  }

  lemma ListTailRead(spread: bool, ts: Toks, first: Expr, after: Toks, items: Items, rest: Toks)
    requires Parse(1, ts) == Got(first, after) && SkipNewlines(ts) == ts && Head(ts) != RBracket && Head(ts) != Ellipsis
    requires ListTail(after) == GotItems(items, rest)
    ensures ListTail(T(Comma, Spread(spread, ts))) == GotItems(Item(spread, first, items), rest)
  {
    var all := Spread(spread, ts);
    assert SkipNewlines(all) == all && Head(all) != RBracket;
  }

  lemma {:induction false} ListBack(items: Items, rest: Toks)
    requires WellFormedItems(items, true)
    ensures Primary(T(LBracket, PrintItems(items, T(RBracket, rest)))) == Got(List(items), rest)
    decreases items, 1
  {
    if items.Item? {
      var after := AfterElement(items.rest, rest);
      Whole(items.e, after);
      Leads(items.e, 0, after);
      ListTailBack(items.rest, rest);
      PrintFirst(items, rest);
      ListRead(items.spread, Print(items.e, 0, after), items.e, after, items.rest, rest);
    } else {
      assert Bracketed(T(RBracket, rest)) == Got(List(NoItems), rest);
    }
  }

  lemma {:induction false} ListTailBack(items: Items, rest: Toks)
    requires WellFormedItems(items, true)
    ensures ListTail(AfterElement(items, rest)) == GotItems(items, rest)
    decreases items, 0
  {
    if items.Item? {
      var after := AfterElement(items.rest, rest);
      Whole(items.e, after);
      Leads(items.e, 0, after);
      ListTailBack(items.rest, rest);
      PrintFirst(items, rest);
      ListTailRead(items.spread, Print(items.e, 0, after), items.e, after, items.rest, rest);
    }
  }

  lemma {:induction false} RangeBack(e: Expr, rest: Toks)
    requires (e.Range? || e.Stepped?) && WellFormed(e)
    ensures Primary(Bare(e, rest)) == Got(e, rest)
    decreases e, 2
  {
    var to := RangeTo(e, rest);
    RangeToBack(e, rest);
    Whole(e.first, T(DotDot, to));
    Leads(e.first, 0, T(DotDot, to));
    RangeRead(Print(e.first, 0, T(DotDot, to)), e.first, to);
    assert Bare(e, rest) == T(LBracket, Print(e.first, 0, T(DotDot, to)));
  }

  lemma RangeRead(ts: Toks, first: Expr, to: Toks)
    requires Parse(1, ts) == Got(first, T(DotDot, to)) && SkipNewlines(ts) == ts && Head(ts) != RBracket && Head(ts) != Ellipsis
    ensures Primary(T(LBracket, ts)) == RangeTail(first, to)
  {
    assert Bracketed(ts) == RangeTail(first, to);
  }

  /** What follows the first dots of a range. */
  function RangeTo(e: Expr, rest: Toks): Toks
    requires e.Range? || e.Stepped?
  {
    Print(e.to, 0, if e.Range? then T(RBracket, rest) else T(DotDot, Print(e.step, 0, T(RBracket, rest))))
  }

  lemma {:induction false} RangeToBack(e: Expr, rest: Toks)
    requires (e.Range? || e.Stepped?) && WellFormed(e)
    ensures RangeTail(e.first, RangeTo(e, rest)) == Got(e, rest)
    decreases e, 0
  {
    var end := T(RBracket, rest);
    var after := if e.Range? then end else T(DotDot, Print(e.step, 0, end));
    Whole(e.to, after);
    Leads(e.to, 0, after);
    if e.Range? {
      RangeEnd(e.first, Print(e.to, 0, after), e.to, rest);
    } else {
      Whole(e.step, end);
      Leads(e.step, 0, end);
      SteppedEnd(e.first, Print(e.to, 0, after), e.to, Print(e.step, 0, end), e.step, rest);
    }
  }

  lemma RangeEnd(first: Expr, ts: Toks, to: Expr, rest: Toks)
    requires Parse(1, ts) == Got(to, T(RBracket, rest)) && SkipNewlines(ts) == ts
    ensures RangeTail(first, ts) == Got(Range(first, to), rest)
  {
  }

  lemma SteppedEnd(first: Expr, ts: Toks, to: Expr, ts1: Toks, step: Expr, rest: Toks)
    requires Parse(1, ts) == Got(to, T(DotDot, ts1)) && SkipNewlines(ts) == ts
    requires Parse(1, ts1) == Got(step, T(RBracket, rest)) && SkipNewlines(ts1) == ts1
    ensures RangeTail(first, ts) == Got(Stepped(first, to, step), rest)
  {
  }

  lemma {:induction false} ParamsBack(ps: seq<string>, after: Toks)
    requires ps != []
    ensures var ts := PrintParams(ps, T(RParen, T(FatArrow, after)));
      ParamsFollow(ts) && Params(ts) == ps && AfterParams(ts) == after && Head(ts) != RParen
    decreases |ps|
  {
    if |ps| > 1 { ParamsBack(ps[1..], after); }
  }

  lemma {:induction false} LambdaBack(e: Expr, rest: Toks)
    requires e.Lambda? && WellFormed(e) && Stops(1, rest)
    ensures Parse(1, Print(e, 0, rest)) == Got(e, rest)
    decreases e, 0
  {
    var body, ts := Print(e.body, 0, rest), Print(e, 0, rest);
    Whole(e.body, rest);
    Leads(e.body, 0, rest);
    assert LambdaBody(e.params, body) == Got(e, rest);
    assert ts == Bare(e, rest);
    if |e.params| == 1 {
      assert e.params == [e.params[0]];
      assert ts == T(Id(e.params[0]), T(FatArrow, body));
      assert Primary(ts) == LambdaBody([e.params[0]], body);
    } else if e.params == [] {
      assert Parenthesized(T(RParen, T(FatArrow, body))) == LambdaBody([], body);
    } else {
      var inner := PrintParams(e.params, T(RParen, T(FatArrow, body)));
      ParamsBack(e.params, body);
      assert Parenthesized(inner) == LambdaBody(e.params, body);
      assert ts == T(LParen, inner);
    }
    Through(1, ts, e, rest);
  }

  // ---------- what follows ----------

  /** No text can be read in two ways: expressions written alike are the same. */
  lemma Unambiguous(e: Expr, f: Expr, rest: Toks)
    requires WellFormed(e) && WellFormed(f) && Stops(1, rest) && Print(e, 0, rest) == Print(f, 0, rest)
    ensures e == f
  {
    Whole(e, rest);
    Whole(f, rest);
  }

  /** A comparison of a comparison must be written with parentheses: without them the parse stops
      before the second operator. */
  lemma ComparisonsStop(op: Tok, a: Expr, b: Expr, op2: Tok, rest: Toks)
    requires OpLevel(op) == 4 && OpLevel(op2) == 4 && WellFormed(a) && WellFormed(b)
    ensures Parse(1, Print(a, 5, T(op, Print(b, 5, T(op2, rest))))) == Got(Binop(op, a, b), T(op2, rest))
  {
    var second := T(op2, rest);
    Operand(5, a, T(op, Print(b, 5, second)));
    Leads(a, 5, T(op, Print(b, 5, second)));
    Operand(5, b, second);
    var ts := Print(a, 5, T(op, Print(b, 5, second)));
    ComparisonRead(ts, op, a, b, Print(b, 5, second), second);
    ReadAbove(ts, Binop(op, a, b), second);
  }

  lemma ComparisonRead(ts: Toks, op: Tok, a: Expr, b: Expr, ts1: Toks, rest: Toks)
    requires OpLevel(op) == 4 && Parse(5, ts) == Got(a, T(op, ts1)) && Parse(5, SkipNewlines(ts1)) == Got(b, rest)
    ensures Parse(4, ts) == Got(Binop(op, a, b), rest)
  {
  }

  lemma ReadAbove(ts: Toks, e: Expr, rest: Toks)
    requires Parse(4, ts) == Got(e, rest) && OpLevel(Head(rest)) == 4
    ensures Parse(1, ts) == Got(e, rest)
  {
    FirstOperand(3, ts, e, rest);
    FirstOperand(2, ts, e, rest);
    FirstOperand(1, ts, e, rest);
  }

  /** The parser on the tokens of a written expression returns it, and reads them all. */
  method ParseWritten(toks: seq<Tok>, ghost e: Expr) returns (f: Expr)
    requires WellFormed(e) && From(toks, 0) == Print(e, 0, End)
    ensures f == e
  {
    Whole(e, End);
    var p := new Parser(toks);
    var ok;
    ok, f := p.ParseExpr();
  }
}
