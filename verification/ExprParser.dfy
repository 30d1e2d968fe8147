/** The recursive descent over the token array. Each method reads what the grammar's function
    reads, and leaves the cursor where it leaves off. */
module ExprParser {
  import opened ExprGrammar

  /** The tokens from index `i` on. */
  function From(toks: seq<Tok>, i: nat): (ts: Toks)
    requires i <= |toks|
    decreases |toks| - i
  {
    if i == |toks| then End else T(toks[i], From(toks, i + 1))
  }

  lemma FromNext(toks: seq<Tok>, i: nat)
    requires i <= |toks|
    ensures Head(From(toks, i)) == if i < |toks| then toks[i] else Eof
    ensures i < |toks| ==> Next(From(toks, i)) == From(toks, i + 1)
  {
  }

  lemma ParamsOne(ts: Toks)
    requires ParamsFollow(ts)
    ensures Head(ts).Id? && (Head(Next(ts)) == Comma || Head(Next(ts)) == RParen)
    ensures Head(Next(ts)) == Comma ==> ParamsFollow(SkipNewlines(Next(Next(ts))))
    ensures Head(Next(ts)) == Comma ==> Params(ts) == [Head(ts).name] + Params(SkipNewlines(Next(Next(ts))))
    ensures Head(Next(ts)) == Comma ==> AfterParams(ts) == AfterParams(SkipNewlines(Next(Next(ts))))
    ensures Head(Next(ts)) == RParen ==> Params(ts) == [Head(ts).name] && Next(ts) == T(RParen, T(FatArrow, AfterParams(ts)))
  {
  }

  /** The names `ps` of the parameters `ts` have been read. */
  ghost predicate Partly(ts: Toks, ps: seq<string>, left: Toks, more: bool)
    requires ParamsFollow(ts)
  {
    if more then ParamsFollow(left) && ps + Params(left) == Params(ts) && AfterParams(left) == AfterParams(ts)
    else ps == Params(ts) && left == T(RParen, T(FatArrow, AfterParams(ts)))
  }

  lemma PartlyMore(ts: Toks, ps: seq<string>, left: Toks, x: string, left': Toks, more: bool)
    requires ParamsFollow(ts) && Partly(ts, ps, left, true)
    requires more ==> ParamsFollow(left') && Params(left) == [x] + Params(left') && AfterParams(left') == AfterParams(left)
    requires !more ==> Params(left) == [x] && left' == T(RParen, T(FatArrow, AfterParams(left)))
    ensures Partly(ts, ps + [x], left', more)
  {
    if more { assert ps + [x] + Params(left') == ps + ([x] + Params(left')); }
  }

  function WithElement(spread: bool, e: Expr, p: ParsedItems): ParsedItems {
    if p.FailItems? then p else GotItems(Item(spread, e, p.items), p.rest)
  }

  /** An element after a comma, and the rest of the list. */
  lemma ElementRead(ts: Toks, spread: bool, p: Parsed)
    requires Head(ts) == Comma && var ts1 := SkipNewlines(Next(ts));
      Head(ts1) != RBracket && spread == (Head(ts1) == Ellipsis) && p == Parse(1, if spread then Next(ts1) else ts1)
    ensures p.Fail? ==> ListTail(ts).FailItems?
    ensures p.Got? ==> ListTail(ts) == WithElement(spread, p.e, ListTail(p.rest))
  {
  }

  /** An operator of the level and its right operand: the parse goes on, unless the operand fails. */
  lemma TailRead(l: nat, lhs: Expr, ts: Toks, p: Parsed)
    requires 1 <= l <= 6 && OpLevel(Head(ts)) == l && p == Parse(l + 1, SkipNewlines(Next(ts)))
    ensures Tail(l, lhs, ts) == Joined(l, Head(ts), lhs, p)
  {
  }

  function Joined(l: nat, op: Tok, lhs: Expr, p: Parsed): Parsed
    requires 1 <= l <= 6
  {
    if p.Fail? then Fail
    else if l == 4 then Got(Join(op, lhs, p.e), p.rest)
    else Tail(l, Join(op, lhs, p.e), p.rest)
  }

  lemma TailOver(l: nat, lhs: Expr, ts: Toks)
    requires 1 <= l <= 6 && OpLevel(Head(ts)) != l && (l == 1 ==> BeforePipe(ts) == ts)
    ensures Tail(l, lhs, ts) == Got(lhs, ts)
  {
  }

  lemma PipeAhead(lhs: Expr, ts: Toks)
    ensures Tail(1, lhs, ts) == Tail(1, lhs, BeforePipe(ts)) && BeforePipe(BeforePipe(ts)) == BeforePipe(ts)
  {
  }

  /** Elements read already, in front of those still to come. */
  function Onto(done: seq<(bool, Expr)>, items: Items): Items {
    if done == [] then items else Item(done[0].0, done[0].1, Onto(done[1..], items))
  }

  function OntoParsed(done: seq<(bool, Expr)>, p: ParsedItems): ParsedItems {
    if p.FailItems? then p else GotItems(Onto(done, p.items), p.rest)
  }

  lemma {:induction false} OntoMore(done: seq<(bool, Expr)>, spread: bool, e: Expr, items: Items)
    ensures Onto(done + [(spread, e)], items) == Onto(done, Item(spread, e, items))
  {
    if done != [] {
      assert (done + [(spread, e)])[1..] == done[1..] + [(spread, e)];
      OntoMore(done[1..], spread, e, items);
    }
  }

  lemma OntoParsedMore(done: seq<(bool, Expr)>, spread: bool, e: Expr, p: ParsedItems)
    ensures OntoParsed(done + [(spread, e)], p) == OntoParsed(done, WithElement(spread, e, p))
  {
    if p.GotItems? { OntoMore(done, spread, e, p.items); }
  }

  class Parser {
    const toks: seq<Tok>
    var i: nat

    ghost predicate Valid()
      reads this
    {
      i <= |toks|
    }

    ghost function Left(): Toks
      reads this
      requires Valid()
    {
      From(toks, i)
    }

    constructor (toks: seq<Tok>)
      ensures Valid() && this.toks == toks && Left() == From(toks, 0)
    {
      this.toks, i := toks, 0;
    }

    method Peek() returns (t: Tok)
      requires Valid()
      ensures t == Head(Left()) && (t != Eof ==> i < |toks|)
    {
      t := if i < |toks| then toks[i] else Eof;
    }

    method PeekNext() returns (t: Tok)
      requires Valid()
      ensures t == Head(Next(Left()))
    {
      t := if i + 1 < |toks| then toks[i + 1] else Eof;
      if i < |toks| { assert Left().tail == From(toks, i + 1); }
    }

    method Advance()
      requires Valid() && i < |toks|
      modifies this
      ensures Valid() && i == old(i) + 1 && Left() == Next(old(Left())) && old(Left()) == T(toks[old(i)], Left())
    {
      i := i + 1;
    }

    method Match(t: Tok) returns (yes: bool)
      requires Valid() && t != Eof
      modifies this
      ensures Valid() && (yes <==> Head(old(Left())) == t) && old(i) <= i
      ensures Left() == if yes then Next(old(Left())) else old(Left())
    {
      var k := Peek();
      yes := k == t;
      if yes { Advance(); }
    }

    method Skip()
      requires Valid()
      modifies this
      ensures Valid() && old(i) <= i && Left() == SkipNewlines(old(Left()))
    {
      var k := Peek();
      while k == Newline
        invariant Valid() && old(i) <= i && k == Head(Left()) && (k != Eof ==> i < |toks|)
        invariant SkipNewlines(Left()) == SkipNewlines(old(Left()))
        decreases Size(Left())
      {
        Advance();
        k := Peek();
      }
    }

    /** What a parse of the tokens `ts` has come to. After an error the cursor is anywhere. */
    ghost predicate Read(p: Parsed, ok: bool, e: Expr)
      reads this
    {
      Valid() && if ok then p == Got(e, Left()) else p.Fail?
    }

    ghost predicate ReadItems(p: ParsedItems, ok: bool, items: Items)
      reads this
    {
      Valid() && if ok then p == GotItems(items, Left()) else p.FailItems?
    }

    method ParseExpr() returns (ok: bool, e: Expr)
      requires Valid()
      modifies this
      ensures Read(Parse(1, old(Left())), ok, e)
      decreases Size(Left()), 12
    {
      ok, e := ParsePipe();
    }

    /** Whether a pipe follows; a newline before it is passed over. */
    method PipeFollows(ghost lhs: Expr) returns (yes: bool)
      requires Valid()
      modifies this
      ensures Valid() && (yes <==> Head(Left()) == PipeApply) && Size(Left()) <= Size(old(Left()))
      ensures Tail(1, lhs, old(Left())) == if yes then Tail(1, lhs, Left()) else Got(lhs, Left())
    {
      PipeAhead(lhs, Left());
      var k := Peek();
      var next := PeekNext();
      if k == Newline && next == PipeApply { Advance(); }
      k := Peek();
      yes := k == PipeApply;
      if !yes { TailOver(1, lhs, Left()); }
    }

    method ParsePipeOperand(lhs: Expr) returns (ok: bool, e: Expr)
      requires Valid() && Head(Left()) == PipeApply
      modifies this
      ensures Valid() && (ok ==> Size(Left()) < Size(old(Left())))
      ensures if ok then Tail(1, lhs, old(Left())) == Tail(1, e, Left()) else Tail(1, lhs, old(Left())).Fail?
      decreases Size(Left()), 11
    {
      ghost var here := Left();
      Advance();
      Skip();
      TailRead(1, lhs, here, Parse(2, Left()));
      ok, e := ParseOr();
      if ok { e := Pipe(lhs, e); }
    }

    method ParsePipe() returns (ok: bool, e: Expr)
      requires Valid()
      modifies this
      ensures Read(Parse(1, old(Left())), ok, e)
      decreases Size(Left()), 11
    {
      ghost var ts := Left();
      ok, e := ParseOr();
      if !ok { return; }
      while true
        invariant ok && Valid() && Tail(1, e, Left()) == Parse(1, ts) && Size(Left()) < Size(ts)
        decreases Size(Left())
      {
        var pipe := PipeFollows(e);
        if !pipe { return; }
        ok, e := ParsePipeOperand(e);
        if !ok { return; }
      }
    }

    method ParseOrOperand(lhs: Expr) returns (ok: bool, e: Expr)
      requires Valid() && Head(Left()) == Or
      modifies this
      ensures Valid() && (ok ==> Size(Left()) < Size(old(Left())))
      ensures if ok then Tail(2, lhs, old(Left())) == Tail(2, e, Left()) else Tail(2, lhs, old(Left())).Fail?
      decreases Size(Left()), 10
    {
      ghost var here := Left();
      Advance();
      Skip();
      TailRead(2, lhs, here, Parse(3, Left()));
      ok, e := ParseAnd();
      if ok { e := Binop(Or, lhs, e); }
    }

    method ParseOr() returns (ok: bool, e: Expr)
      requires Valid()
      modifies this
      ensures Read(Parse(2, old(Left())), ok, e)
      decreases Size(Left()), 10
    {
      ghost var ts := Left();
      ok, e := ParseAnd();
      if !ok { return; }
      var k := Peek();
      while k == Or
        invariant ok && Valid() && Tail(2, e, Left()) == Parse(2, ts) && Size(Left()) < Size(ts) && k == Head(Left())
        decreases Size(Left())
      {
        ok, e := ParseOrOperand(e);
        if !ok { return; }
        k := Peek();
      }
      TailOver(2, e, Left());
    }

    method ParseAndOperand(lhs: Expr) returns (ok: bool, e: Expr)
      requires Valid() && Head(Left()) == And
      modifies this
      ensures Valid() && (ok ==> Size(Left()) < Size(old(Left())))
      ensures if ok then Tail(3, lhs, old(Left())) == Tail(3, e, Left()) else Tail(3, lhs, old(Left())).Fail?
      decreases Size(Left()), 9
    {
      ghost var here := Left();
      Advance();
      Skip();
      TailRead(3, lhs, here, Parse(4, Left()));
      ok, e := ParseCmp();
      if ok { e := Binop(And, lhs, e); }
    }

    method ParseAnd() returns (ok: bool, e: Expr)
      requires Valid()
      modifies this
      ensures Read(Parse(3, old(Left())), ok, e)
      decreases Size(Left()), 9
    {
      ghost var ts := Left();
      ok, e := ParseCmp();
      if !ok { return; }
      var k := Peek();
      while k == And
        invariant ok && Valid() && Tail(3, e, Left()) == Parse(3, ts) && Size(Left()) < Size(ts) && k == Head(Left())
        decreases Size(Left())
      {
        ok, e := ParseAndOperand(e);
        if !ok { return; }
        k := Peek();
      }
      TailOver(3, e, Left());
    }

    static predicate IsCmp(k: Tok)
      ensures IsCmp(k) <==> OpLevel(k) == 4
    {
      k == EqEq || k == NotEq || k == Less || k == Greater || k == LessEq || k == GreaterEq
    }

    method ParseCmp() returns (ok: bool, e: Expr)
      requires Valid()
      modifies this
      ensures Read(Parse(4, old(Left())), ok, e)
      decreases Size(Left()), 8
    {
      ok, e := ParseAdd();
      if !ok { return; }
      var k := Peek();
      if IsCmp(k) {
        ok, e := ParseCmpOperand(e, k);
      } else {
        TailOver(4, e, Left());
      }
    }

    method ParseCmpOperand(lhs: Expr, k: Tok) returns (ok: bool, e: Expr)
      requires Valid() && Head(Left()) == k && OpLevel(k) == 4
      modifies this
      ensures Read(Tail(4, lhs, old(Left())), ok, e)
      decreases Size(Left()), 8
    {
      ghost var here := Left();
      Advance();
      Skip();
      TailRead(4, lhs, here, Parse(5, Left()));
      ok, e := ParseAdd();
      if ok { e := Binop(k, lhs, e); }
    }

    method ParseAddOperand(lhs: Expr, k: Tok) returns (ok: bool, e: Expr)
      requires Valid() && Head(Left()) == k && OpLevel(k) == 5
      modifies this
      ensures Valid() && (ok ==> Size(Left()) < Size(old(Left())))
      ensures if ok then Tail(5, lhs, old(Left())) == Tail(5, e, Left()) else Tail(5, lhs, old(Left())).Fail?
      decreases Size(Left()), 7
    {
      ghost var here := Left();
      Advance();
      Skip();
      TailRead(5, lhs, here, Parse(6, Left()));
      ok, e := ParseMul();
      if ok { e := Binop(k, lhs, e); }
    }

    method ParseAdd() returns (ok: bool, e: Expr)
      requires Valid()
      modifies this
      ensures Read(Parse(5, old(Left())), ok, e)
      decreases Size(Left()), 7
    {
      ghost var ts := Left();
      ok, e := ParseMul();
      if !ok { return; }
      var k := Peek();
      while k == Plus || k == Minus
        invariant ok && Valid() && Tail(5, e, Left()) == Parse(5, ts) && Size(Left()) < Size(ts) && k == Head(Left())
        decreases Size(Left())
      {
        ok, e := ParseAddOperand(e, k);
        if !ok { return; }
        k := Peek();
      }
      TailOver(5, e, Left());
    }

    method ParseMulOperand(lhs: Expr, k: Tok) returns (ok: bool, e: Expr)
      requires Valid() && Head(Left()) == k && OpLevel(k) == 6
      modifies this
      ensures Valid() && (ok ==> Size(Left()) < Size(old(Left())))
      ensures if ok then Tail(6, lhs, old(Left())) == Tail(6, e, Left()) else Tail(6, lhs, old(Left())).Fail?
      decreases Size(Left()), 6
    {
      ghost var here := Left();
      Advance();
      Skip();
      TailRead(6, lhs, here, Parse(7, Left()));
      ok, e := ParseUnary();
      if ok { e := Binop(k, lhs, e); }
    }

    method ParseMul() returns (ok: bool, e: Expr)
      requires Valid()
      modifies this
      ensures Read(Parse(6, old(Left())), ok, e)
      decreases Size(Left()), 6
    {
      ghost var ts := Left();
      ok, e := ParseUnary();
      if !ok { return; }
      var k := Peek();
      while k == Star || k == Slash || k == SlashSlash || k == Percent
        invariant ok && Valid() && Tail(6, e, Left()) == Parse(6, ts) && Size(Left()) < Size(ts) && k == Head(Left())
        decreases Size(Left())
      {
        ok, e := ParseMulOperand(e, k);
        if !ok { return; }
        k := Peek();
      }
      TailOver(6, e, Left());
    }

    method ParseUnary() returns (ok: bool, e: Expr)
      requires Valid()
      modifies this
      ensures Read(Parse(7, old(Left())), ok, e)
      decreases Size(Left()), 5
    {
      var k := Peek();
      if k == Minus || k == Not {
        Advance();
        Skip();
        ok, e := ParseUnary();
        if ok { e := Unop(k, e); }
      } else {
        ok, e := ParsePostfix();
      }
    }

    method ParsePostfix() returns (ok: bool, e: Expr)
      requires Valid()
      modifies this
      ensures Read(Parse(8, old(Left())), ok, e)
      decreases Size(Left()), 4
    {
      ghost var ts := Left();
      ok, e := ParsePrimary();
      if !ok { return; }
      while true
        invariant ok && Valid() && Suffixes(e, Left()) == Parse(8, ts) && Size(Left()) < Size(ts)
        decreases Size(Left())
      {
        var k := Peek();
        var next := PeekNext();
        if k == LParen {
          ok, e := ParseCallSuffix(e);
          if !ok { return; }
        } else if k == Dot && next.Id? {
          Advance();
          Advance();
          e := Field(e, next.name);
        } else if k == LBracket {
          ok, e := ParseIndexSuffix(e);
          if !ok { return; }
        } else {
          return;
        }
      }
    }

    method ParseCallSuffix(lhs: Expr) returns (ok: bool, e: Expr)
      requires Valid() && Head(Left()) == LParen
      modifies this
      ensures Valid()
      ensures if ok then Suffixes(lhs, old(Left())) == Suffixes(e, Left()) && Size(Left()) < Size(old(Left()))
              else Suffixes(lhs, old(Left())).Fail?
      decreases Size(Left()), 3
    {
      e := lhs;
      Advance();
      Skip();
      ghost var ts := Left();
      var args := NoItems;
      var k := Peek();
      if k != RParen {
        ok, args := ParseArguments();
      } else {
        Advance();
        ok := true;
      }
      if ok { e := Call(lhs, args); }
    }

    /** The arguments and the closing parenthesis. */
    method ParseArguments() returns (ok: bool, args: Items)
      requires Valid()
      modifies this
      ensures ReadItems(MoreArguments(old(Left())), ok, args)
      decreases Size(Left()), 13
    {
      ghost var ts := Left();
      var done: seq<(bool, Expr)> := [];
      args := NoItems;
      while true
        invariant Valid() && Size(Left()) <= Size(ts) && OntoParsed(done, MoreArguments(Left())) == MoreArguments(ts)
        decreases Size(Left())
      {
        ghost var here := Left();
        Skip();
        var e;
        ok, e := ParseExpr();
        if !ok { return; }
        Skip();
        var comma := Match(Comma);
        if !comma {
          ok := Match(RParen);
          args := Onto(done + [(false, e)], NoItems);
          OntoParsedMore(done, false, e, GotItems(NoItems, Left()));
          return;
        }
        OntoParsedMore(done, false, e, MoreArguments(Left()));
        done := done + [(false, e)];
      }
    }

    method ParseIndexSuffix(lhs: Expr) returns (ok: bool, e: Expr)
      requires Valid() && Head(Left()) == LBracket
      modifies this
      ensures Valid()
      ensures if ok then Suffixes(lhs, old(Left())) == Suffixes(e, Left()) && Size(Left()) < Size(old(Left()))
              else Suffixes(lhs, old(Left())).Fail?
      decreases Size(Left()), 3
    {
      e := lhs;
      Advance();
      Skip();
      var index;
      ok, index := ParseExpr();
      if !ok { return; }
      ok := Match(RBracket);
      if ok { e := Index(lhs, index); }
    }

    method ParsePrimary() returns (ok: bool, e: Expr)
      requires Valid()
      modifies this
      ensures Read(Primary(old(Left())), ok, e)
      decreases Size(Left()), 3
    {
      var k := Peek();
      ok, e := true, Unit;
      match k {
        case Lit(v) => Advance(); e := Literal(v);
        case True => Advance(); e := Bool(true);
        case False => Advance(); e := Bool(false);
        case Dot => Advance(); e := Placeholder;
        case LBracket => ok, e := ParseListOrRange();
        case LParen => ok, e := ParseParenExpr();
        case Id(x) => ok, e := ParseName(x);
        case _ => ok := false;
      }
    }

    /** A name, or a lambda of one parameter. */
    method ParseName(x: string) returns (ok: bool, e: Expr)
      requires Valid() && Head(Left()) == Id(x)
      modifies this
      ensures Read(Primary(old(Left())), ok, e)
      decreases Size(Left()), 2
    {
      Advance();
      var k := Peek();
      if k == FatArrow {
        Advance();
        ok, e := ParseLambdaBody([x]);
      } else {
        ok, e := !(Upper(x) && k == LBrace), Ident(x);
      }
    }

    method ParseLambdaBody(ps: seq<string>) returns (ok: bool, e: Expr)
      requires Valid()
      modifies this
      ensures Read(LambdaBody(ps, old(Left())), ok, e)
      decreases Size(Left()), 13
    {
      Skip();
      ok, e := ParseExpr();
      if ok { e := Lambda(ps, e); }
    }

    /** Looks ahead for the parameter list of a lambda; the cursor stays. */
    method ScanParenIsLambda() returns (yes: bool)
      requires Valid()
      ensures yes <==> ParamsFollow(Left())
    {
      var j := i;
      while true
        invariant i <= j <= |toks| && ParamsFollow(From(toks, j)) == ParamsFollow(Left())
        decreases |toks| - j
      {
        FromNext(toks, j);
        if j == |toks| || !toks[j].Id? { return false; }
        j := j + 1;
        FromNext(toks, j);
        if j == |toks| { return false; }
        if toks[j] == RParen {
          FromNext(toks, j + 1);
          return j + 1 < |toks| && toks[j + 1] == FatArrow;
        }
        if toks[j] != Comma { return false; }
        j := PastNewlines(j + 1);
      }
    }

    method PastNewlines(start: nat) returns (j: nat)
      requires start <= |toks|
      ensures start <= j <= |toks| && From(toks, j) == SkipNewlines(From(toks, start))
    {
      j := start;
      while j < |toks| && toks[j] == Newline
        invariant start <= j <= |toks| && SkipNewlines(From(toks, j)) == SkipNewlines(From(toks, start))
      {
        j := j + 1;
      }
    }

    method ParseParenLambda() returns (ok: bool, e: Expr)
      requires Valid() && ParamsFollow(Left())
      modifies this
      ensures Read(LambdaBody(Params(old(Left())), AfterParams(old(Left()))), ok, e)
      decreases Size(Left()), 14
    {
      ghost var ts := Left();
      var ps := [];
      var more := true;
      assert [] + Params(ts) == Params(ts);
      while more
        invariant Valid() && Size(Left()) <= Size(ts) && Partly(ts, ps, Left(), more)
        decreases more, Size(Left())
      {
        var x;
        ghost var here := Left();
        more, x := ParseParam();
        PartlyMore(ts, ps, here, x, Left(), more);
        ps := ps + [x];
      }
      Advance();
      Advance();
      ok, e := ParseLambdaBody(ps);
    }

    /** One parameter, and the comma after it. */
    method ParseParam() returns (more: bool, x: string)
      requires Valid() && ParamsFollow(Left())
      modifies this
      ensures Valid() && Size(Left()) < Size(old(Left()))
      ensures more ==> ParamsFollow(Left()) && Params(old(Left())) == [x] + Params(Left()) && AfterParams(Left()) == AfterParams(old(Left()))
      ensures !more ==> Params(old(Left())) == [x] && Left() == T(RParen, T(FatArrow, AfterParams(old(Left()))))
    {
      ghost var ts := Left();
      ParamsOne(ts);
      var k := Peek();
      x := k.name;
      Advance();
      more := Match(Comma);
      if more { Skip(); }
    }

    method ParseParenExpr() returns (ok: bool, e: Expr)
      requires Valid() && Head(Left()) == LParen
      modifies this
      ensures Read(Primary(old(Left())), ok, e)
      decreases Size(Left()), 2
    {
      Advance();
      var unit := Match(RParen);
      if unit {
        var arrow := Match(FatArrow);
        if arrow { ok, e := ParseLambdaBody([]); } else { ok, e := true, Unit; }
        return;
      }
      var lambda := ScanParenIsLambda();
      if lambda {
        ok, e := ParseParenLambda();
        return;
      }
      Skip();
      ok, e := ParseExpr();
      if ok { ok := Match(RParen); }
    }

    method ParseListOrRange() returns (ok: bool, e: Expr)
      requires Valid() && Head(Left()) == LBracket
      modifies this
      ensures Read(Primary(old(Left())), ok, e)
      decreases Size(Left()), 2
    {
      Advance();
      Skip();
      var empty := Match(RBracket);
      if empty { return true, List(NoItems); }
      var spread := Match(Ellipsis);
      ok, e := ParseExpr();
      if !ok { return; }
      var k := Peek();
      if k == DotDot && !spread {
        Advance();
        ok, e := ParseRangeTail(e);
      } else {
        var items;
        ok, items := ParseListTail();
        e := List(Item(spread, e, items));
      }
    }

    method ParseRangeTail(first: Expr) returns (ok: bool, e: Expr)
      requires Valid()
      modifies this
      ensures Read(RangeTail(first, old(Left())), ok, e)
      decreases Size(Left()), 13
    {
      Skip();
      var to;
      ok, to := ParseExpr();
      e := to;
      if !ok { return; }
      var dots := Match(DotDot);
      if dots {
        Skip();
        var step;
        ok, step := ParseExpr();
        if !ok { return; }
        ok := Match(RBracket);
        e := Stepped(first, to, step);
      } else {
        ok := Match(RBracket);
        e := Range(first, to);
      }
    }

    method ParseListElement(ghost here: Toks) returns (ok: bool, spread: bool, e: Expr)
      requires Valid() && Head(here) == Comma && SkipNewlines(Next(here)) == Left() && Head(Left()) != RBracket
      modifies this
      ensures Valid() && (ok ==> Size(Left()) < Size(old(Left())))
      ensures ListTail(here) == if ok then WithElement(spread, e, ListTail(Left())) else FailItems
      decreases Size(Left()), 13
    {
      spread := Match(Ellipsis);
      ElementRead(here, spread, Parse(1, Left()));
      ok, e := ParseExpr();
    }

    /** The elements after the first, and the closing bracket. */
    method ParseListTail() returns (ok: bool, items: Items)
      requires Valid()
      modifies this
      ensures ReadItems(ListTail(old(Left())), ok, items)
      decreases Size(Left()), 13
    {
      ghost var ts := Left();
      var done: seq<(bool, Expr)> := [];
      items := NoItems;
      var comma := Match(Comma);
      while comma
        invariant Valid() && Size(Left()) <= Size(ts)
        invariant OntoParsed(done, ListTail(if comma then T(Comma, Left()) else Left())) == ListTail(ts)
        invariant !comma ==> Head(Left()) != Comma
        decreases comma, Size(Left())
      {
        ghost var here := T(Comma, Left());
        Skip();
        var k := Peek();
        if k == RBracket { break; }
        var spread, e;
        ok, spread, e := ParseListElement(here);
        if !ok { return; }
        OntoParsedMore(done, spread, e, ListTail(Left()));
        done := done + [(spread, e)];
        comma := Match(Comma);
      }
      Skip();
      ok := Match(RBracket);
      items := Onto(done, NoItems);
    }
  }
}
