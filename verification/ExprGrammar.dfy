/** Expressions, how they are written with no more parentheses than they need, and the parser as
    a function of the tokens. Parsing undoes writing. */
module ExprGrammar {

  datatype Tok =
    | Lit(value: nat) | True | False | Id(name: string)
    | LParen | RParen | LBracket | RBracket | LBrace
    | Comma | Dot | DotDot | Ellipsis | FatArrow | Newline
    | Minus | Not | Plus | Star | Slash | SlashSlash | Percent
    | EqEq | NotEq | Less | Greater | LessEq | GreaterEq
    | And | Or | PipeApply | Eof | OtherTok(code: nat)

  datatype Toks = End | T(head: Tok, tail: Toks)

  datatype Expr =
    | Literal(value: nat) | Bool(b: bool) | Ident(name: string) | Unit | Placeholder
    | Binop(op: Tok, lhs: Expr, rhs: Expr) | Pipe(lhs: Expr, rhs: Expr) | Unop(op: Tok, arg: Expr)
    | Call(callee: Expr, args: Items) | Field(base: Expr, name: string) | Index(base: Expr, index: Expr)
    | List(items: Items) | Range(first: Expr, to: Expr) | Stepped(first: Expr, to: Expr, step: Expr)
    | Lambda(params: seq<string>, body: Expr)

  /** The arguments of a call, or the elements of a list. */
  datatype Items = NoItems | Item(spread: bool, e: Expr, rest: Items)

  // ---------- levels of the grammar ----------

  /** The level at which a token joins two operands: 1 binds the loosest. 0: it does not. */
  function OpLevel(t: Tok): nat {
    match t
    case PipeApply => 1
    case Or => 2
    case And => 3
    case EqEq => 4
    case NotEq => 4
    case Less => 4
    case Greater => 4
    case LessEq => 4
    case GreaterEq => 4
    case Plus => 5
    case Minus => 5
    case Star => 6
    case Slash => 6
    case SlashSlash => 6
    case Percent => 6
    case _ => 0
  }

  function Level(e: Expr): nat {
    match e
    case Lambda(_, _) => 0
    case Pipe(_, _) => 1
    case Binop(op, _, _) => OpLevel(op)
    case Unop(_, _) => 7
    case Call(_, _) => 8
    case Field(_, _) => 8
    case Index(_, _) => 8
    case _ => 9
  }

  /** The operators with two operands; the pipe has a tree of its own. */
  predicate IsBinary(t: Tok) {
    t in {Or, And, EqEq, NotEq, Less, Greater, LessEq, GreaterEq, Plus, Minus, Star, Slash, SlashSlash, Percent}
  }

  /** Operators stand where the grammar has them. */
  predicate WellFormed(e: Expr)
    decreases e
  {
    match e
    case Binop(op, a, b) => IsBinary(op) && WellFormed(a) && WellFormed(b)
    case Pipe(a, b) => WellFormed(a) && WellFormed(b)
    case Unop(op, a) => op in {Minus, Not} && WellFormed(a)
    case Call(f, args) => WellFormed(f) && WellFormedItems(args, false)
    case Field(a, _) => WellFormed(a)
    case Index(a, i) => WellFormed(a) && WellFormed(i)
    case List(items) => WellFormedItems(items, true)
    case Range(a, b) => WellFormed(a) && WellFormed(b)
    case Stepped(a, b, c) => WellFormed(a) && WellFormed(b) && WellFormed(c)
    case Lambda(_, b) => WellFormed(b)
    case _ => true
  }

  predicate WellFormedItems(items: Items, spreads: bool)
    decreases items
  {
    items.Item? ==> (items.spread ==> spreads) && WellFormed(items.e) && WellFormedItems(items.rest, spreads)
  }

  // ---------- writing ----------

  /** Writes `e` in front of `rest`, in parentheses if it binds more loosely than level `l`. */
  function Print(e: Expr, l: nat, rest: Toks): Toks
    decreases e, 1
  {
    if Level(e) < l then T(LParen, Bare(e, T(RParen, rest))) else Bare(e, rest)
  }

  function Bare(e: Expr, rest: Toks): Toks
    decreases e, 0
  {
    match e
    case Literal(v) => T(Lit(v), rest)
    case Bool(b) => T(if b then True else False, rest)
    case Ident(x) => T(Id(x), rest)
    case Unit => T(LParen, T(RParen, rest))
    case Placeholder => T(Dot, rest)
    case Pipe(a, b) => Print(a, 1, T(PipeApply, Print(b, 2, rest)))
    case Binop(op, a, b) =>
      // comparisons do not chain, every other operator leans left
      Print(a, if OpLevel(op) == 4 then 5 else OpLevel(op), T(op, Print(b, OpLevel(op) + 1, rest)))
    case Unop(op, a) => T(op, Print(a, 7, rest))
    case Call(f, args) => Print(f, 8, T(LParen, PrintItems(args, T(RParen, rest))))
    case Field(a, x) => Print(a, 8, T(Dot, T(Id(x), rest)))
    case Index(a, i) => Print(a, 8, T(LBracket, Print(i, 0, T(RBracket, rest))))
    case List(items) => T(LBracket, PrintItems(items, T(RBracket, rest)))
    case Range(a, b) => T(LBracket, Print(a, 0, T(DotDot, Print(b, 0, T(RBracket, rest)))))
    case Stepped(a, b, c) =>
      T(LBracket, Print(a, 0, T(DotDot, Print(b, 0, T(DotDot, Print(c, 0, T(RBracket, rest)))))))
    case Lambda(ps, b) =>
      if |ps| == 1 then T(Id(ps[0]), T(FatArrow, Print(b, 0, rest)))
      else T(LParen, PrintParams(ps, T(RParen, T(FatArrow, Print(b, 0, rest)))))
  }

  function PrintItems(items: Items, rest: Toks): Toks
    decreases items
  {
    if items.NoItems? then rest else
      var more := if items.rest.NoItems? then rest else T(Comma, PrintItems(items.rest, rest));
      var e := Print(items.e, 0, more);
      if items.spread then T(Ellipsis, e) else e
  }

  function PrintParams(ps: seq<string>, rest: Toks): Toks {
    if ps == [] then rest
    else T(Id(ps[0]), if |ps| == 1 then rest else T(Comma, PrintParams(ps[1..], rest)))
  }

  // ---------- parsing ----------

  function Size(ts: Toks): nat {
    if ts.End? then 0 else Size(ts.tail) + 1
  }

  function Next(ts: Toks): (r: Toks)
    ensures ts.T? ==> Size(r) == Size(ts) - 1
    ensures Size(r) <= Size(ts)
  {
    if ts.End? then End else ts.tail
  }

  function Head(ts: Toks): Tok {
    if ts.End? then Eof else ts.head
  }

  function SkipNewlines(ts: Toks): (r: Toks)
    ensures Size(r) <= Size(ts)
  {
    if Head(ts) == Newline then SkipNewlines(Next(ts)) else ts
  }

  datatype Parsed = Fail | Got(e: Expr, rest: Toks)
  datatype ParsedItems = FailItems | GotItems(items: Items, rest: Toks)

  /** A newline may stand before a pipe. */
  function BeforePipe(ts: Toks): (r: Toks)
    ensures Size(r) <= Size(ts)
  {
    if Head(ts) == Newline && Head(Next(ts)) == PipeApply then Next(ts) else ts
  }

  /** Levels 1 to 6 are the operators, 7 the prefixes, 8 the suffixes, 9 what stands alone. */
  function Parse(l: nat, ts: Toks): (r: Parsed)
    requires 1 <= l <= 9
    ensures r.Got? ==> Size(r.rest) < Size(ts)
    decreases Size(ts), 10 - l, 1
  {
    if l <= 6 then
      match Parse(l + 1, ts)
      case Fail => Fail
      case Got(e, rest) => Tail(l, e, rest)
    else if l == 7 then
      if Head(ts) in {Minus, Not} then
        match Parse(7, SkipNewlines(Next(ts)))
        case Fail => Fail
        case Got(e, rest) => Got(Unop(Head(ts), e), rest)
      else Parse(8, ts)
    else if l == 8 then
      match Parse(9, ts)
      case Fail => Fail
      case Got(e, rest) => Suffixes(e, rest)
    else Primary(ts)
  }

  function Join(op: Tok, a: Expr, b: Expr): Expr {
    if op == PipeApply then Pipe(a, b) else Binop(op, a, b)
  }

  /** What follows the first operand of a level. */
  function Tail(l: nat, lhs: Expr, ts: Toks): (r: Parsed)
    requires 1 <= l <= 6
    ensures r.Got? ==> Size(r.rest) <= Size(ts)
    decreases Size(ts), 10 - l, 0
  {
    var ts1 := if l == 1 then BeforePipe(ts) else ts;
    if OpLevel(Head(ts1)) != l then Got(lhs, ts1) else
      match Parse(l + 1, SkipNewlines(Next(ts1)))
      case Fail => Fail
      case Got(rhs, rest) =>
        if l == 4 then Got(Join(Head(ts1), lhs, rhs), rest) else Tail(l, Join(Head(ts1), lhs, rhs), rest)
  }

  function Suffixes(lhs: Expr, ts: Toks): (r: Parsed)
    ensures r.Got? ==> Size(r.rest) <= Size(ts)
    decreases Size(ts), 0
  {
    if Head(ts) == LParen then
      match Arguments(SkipNewlines(Next(ts)))
      case FailItems => Fail
      case GotItems(args, rest) => Suffixes(Call(lhs, args), rest)
    else if Head(ts) == Dot && Head(Next(ts)).Id? then Suffixes(Field(lhs, Head(Next(ts)).name), Next(Next(ts)))
    else if Head(ts) == LBracket then
      match Parse(1, SkipNewlines(Next(ts)))
      case Fail => Fail
      case Got(i, rest) => if Head(rest) == RBracket then Suffixes(Index(lhs, i), Next(rest)) else Fail
    else Got(lhs, ts)
  }

  function Arguments(ts: Toks): (r: ParsedItems)
    ensures r.GotItems? ==> Size(r.rest) < Size(ts)
    decreases Size(ts), 12
  {
    if Head(ts) == RParen then GotItems(NoItems, Next(ts)) else MoreArguments(ts)
  }

  function MoreArguments(ts: Toks): (r: ParsedItems)
    ensures r.GotItems? ==> Size(r.rest) < Size(ts)
    decreases Size(ts), 11
  {
    match Parse(1, SkipNewlines(ts))
    case Fail => FailItems
    case Got(e, rest) =>
      var ts1 := SkipNewlines(rest);
      if Head(ts1) == Comma then
        match MoreArguments(Next(ts1))
        case FailItems => FailItems
        case GotItems(args, rest1) => GotItems(Item(false, e, args), rest1)
      else if Head(ts1) == RParen then GotItems(Item(false, e, NoItems), Next(ts1))
      else FailItems
  }

  predicate Upper(x: string) {
    |x| > 0 && 'A' <= x[0] <= 'Z'
  }

  function Primary(ts: Toks): (r: Parsed)
    ensures r.Got? ==> Size(r.rest) < Size(ts)
    decreases Size(ts), 1, 0
  {
    match Head(ts)
    case Lit(v) => Got(Literal(v), Next(ts))
    case True => Got(Bool(true), Next(ts))
    case False => Got(Bool(false), Next(ts))
    case Dot => Got(Placeholder, Next(ts))
    case LBracket => Bracketed(SkipNewlines(Next(ts)))
    case LParen => Parenthesized(Next(ts))
    case Id(x) =>
      if Head(Next(ts)) == FatArrow then LambdaBody([x], Next(Next(ts)))
      else if Upper(x) && Head(Next(ts)) == LBrace then Fail
      else Got(Ident(x), Next(ts))
    case _ => Fail
  }

  function LambdaBody(ps: seq<string>, ts: Toks): (r: Parsed)
    ensures r.Got? ==> Size(r.rest) < Size(ts)
    decreases Size(ts), 12
  {
    match Parse(1, SkipNewlines(ts))
    case Fail => Fail
    case Got(b, rest) => Got(Lambda(ps, b), rest)
  }

  /** Whether names, commas, a closing parenthesis and an arrow follow. */
  predicate ParamsFollow(ts: Toks)
    decreases Size(ts)
  {
    Head(ts).Id? &&
      (if Head(Next(ts)) == RParen then Head(Next(Next(ts))) == FatArrow
       else Head(Next(ts)) == Comma && ParamsFollow(SkipNewlines(Next(Next(ts)))))
  }

  function Params(ts: Toks): (ps: seq<string>)
    requires ParamsFollow(ts)
    decreases Size(ts)
  {
    [ts.head.name] + if Head(Next(ts)) == RParen then [] else Params(SkipNewlines(Next(Next(ts))))
  }

  function AfterParams(ts: Toks): (r: Toks)
    requires ParamsFollow(ts)
    ensures Size(r) < Size(ts)
    decreases Size(ts)
  {
    if Head(Next(ts)) == RParen then Next(Next(Next(ts))) else AfterParams(SkipNewlines(Next(Next(ts))))
  }

  /** After the opening parenthesis: unit, the parameters of a lambda, or an expression. */
  function Parenthesized(ts: Toks): (r: Parsed)
    ensures r.Got? ==> Size(r.rest) < Size(ts)
    decreases Size(ts), 13
  {
    if Head(ts) == RParen then
      if Head(Next(ts)) == FatArrow then LambdaBody([], Next(Next(ts))) else Got(Unit, Next(ts))
    else if ParamsFollow(ts) then LambdaBody(Params(ts), AfterParams(ts))
    else
      match Parse(1, SkipNewlines(ts))
      case Fail => Fail
      case Got(e, rest) => if Head(rest) == RParen then Got(e, Next(rest)) else Fail
  }

  /** After the opening bracket: a list, or a range. */
  function Bracketed(ts: Toks): (r: Parsed)
    ensures r.Got? ==> Size(r.rest) < Size(ts)
    decreases Size(ts), 13
  {
    if Head(ts) == RBracket then Got(List(NoItems), Next(ts)) else
      var spread := Head(ts) == Ellipsis;
      match Parse(1, if spread then Next(ts) else ts)
      case Fail => Fail
      case Got(first, rest) =>
        if Head(rest) == DotDot && !spread then RangeTail(first, Next(rest))
        else
          match ListTail(rest)
          case FailItems => Fail
          case GotItems(items, rest1) => Got(List(Item(spread, first, items)), rest1)
  }

  function ListTail(ts: Toks): (r: ParsedItems)
    ensures r.GotItems? ==> Size(r.rest) < Size(ts)
    decreases Size(ts), 12
  {
    if Head(ts) == Comma then
      var ts1 := SkipNewlines(Next(ts));
      if Head(ts1) == RBracket then GotItems(NoItems, Next(ts1)) else
        var spread := Head(ts1) == Ellipsis;
        match Parse(1, if spread then Next(ts1) else ts1)
        case Fail => FailItems
        case Got(e, rest) =>
          match ListTail(rest)
          case FailItems => FailItems
          case GotItems(items, rest1) => GotItems(Item(spread, e, items), rest1)
    else
      var ts1 := SkipNewlines(ts);
      if Head(ts1) == RBracket then GotItems(NoItems, Next(ts1)) else FailItems
  }

  function RangeTail(first: Expr, ts: Toks): (r: Parsed)
    ensures r.Got? ==> Size(r.rest) < Size(ts)
    decreases Size(ts), 12
  {
    match Parse(1, SkipNewlines(ts))
    case Fail => Fail
    case Got(to, rest) =>
      if Head(rest) == DotDot then
        match Parse(1, SkipNewlines(Next(rest)))
        case Fail => Fail
        case Got(step, rest1) => if Head(rest1) == RBracket then Got(Stepped(first, to, step), Next(rest1)) else Fail
      else if Head(rest) == RBracket then Got(Range(first, to), Next(rest))
      else Fail
  }
}
