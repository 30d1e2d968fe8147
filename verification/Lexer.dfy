/** The lexer: from every source it makes tokens that tile it. */
module Lexer {
  import opened LexRules

  class Lexer {
    const src: Source
    var pos: nat
    var line: nat
    var col: nat
    var toks: seq<Token>

    ghost predicate Valid()
      reads this
    {
      pos <= |src| && line == LineAt(src, pos) && col == ColAt(src, pos)
    }

    /** Just one token was added since there were `before`: the one from `start` to here. */
    ghost predicate Added(before: seq<Token>, start: nat)
      reads this
    {
      && Valid() && start < pos && toks != [] && toks[..|toks| - 1] == before
      && var t := toks[|toks| - 1];
        && t.start == start && t.end == pos && t.kind != EOF
        && t.line == LineAt(src, start) && t.col == ColAt(src, start) && Spelled(src, t)
    }

    constructor (src: Source)
      ensures Valid() && this.src == src && pos == 0 && toks == []
    {
      this.src := src;
      pos, line, col, toks := 0, 1, 1, [];
    }

    function Peek(): char
      reads this
    {
      At(src, pos)
    }

    function Peek2(): char
      reads this
    {
      At(src, pos + 1)
    }

    method Advance()
      requires Valid() && pos < |src|
      modifies this
      ensures Valid() && pos == old(pos) + 1 && toks == old(toks)
    {
      if src[pos] == '\n' { line, col := line + 1, 1; } else { col := col + 1; }
      pos := pos + 1;
    }

    method Match(c: char) returns (yes: bool)
      requires Valid() && c != '\0'
      modifies this
      ensures Valid() && toks == old(toks) && (yes <==> At(src, old(pos)) == c) && pos == old(pos) + if yes then 1 else 0
    {
      yes := Peek() == c;
      if yes { Advance(); }
    }

    method Push(kind: Kind, start: nat, sl: nat, sc: nat)
      requires Valid() && start < pos && kind != EOF && sl == LineAt(src, start) && sc == ColAt(src, start)
      requires Spelled(src, Token(kind, start, pos, sl, sc))
      modifies this
      ensures Added(old(toks), start) && pos == old(pos) && toks[|toks| - 1].kind == kind
    {
      toks := toks + [Token(kind, start, pos, sl, sc)];
    }

    method PushString(start: nat, sl: nat, sc: nat)
      requires Valid() && start < pos && sl == LineAt(src, start) && sc == ColAt(src, start) && src[start] == '"'
      requires StringEnd(src, Opening(src, start).0, Opening(src, start).1) == (pos, true)
      modifies this
      ensures Added(old(toks), start) && pos == old(pos) && toks[|toks| - 1].kind == STRING
    {
      assert src[start..pos][0] == src[start];
      Push(STRING, start, sl, sc);
    }

    method PushNumber(isReal: bool, start: nat, sl: nat, sc: nat)
      requires Valid() && start < pos && sl == LineAt(src, start) && sc == ColAt(src, start) && Digit(src[start])
      requires ExponentEnd(src, FractionEnd(src, DigitsEnd(src, start))) == (pos, true)
      requires isReal <==> DigitsEnd(src, start) < pos
      modifies this
      ensures Added(old(toks), start) && pos == old(pos) && toks[|toks| - 1].kind == if isReal then REAL else INT
    {
      Push(if isReal then REAL else INT, start, sl, sc);
    }

    method PushError(start: nat, sl: nat, sc: nat)
      requires Valid() && start < pos && sl == LineAt(src, start) && sc == ColAt(src, start)
      requires IsError(src, Token(ERROR, start, pos, sl, sc))
      modifies this
      ensures Added(old(toks), start) && pos == old(pos) && toks[|toks| - 1].kind == ERROR
    {
      assert src[start..pos] != "";
      Push(ERROR, start, sl, sc);
    }

    // ---------- what is skipped ----------

    method SkipLineComment()
      requires Valid()
      modifies this
      ensures Valid() && toks == old(toks) && pos == LineEnd(src, old(pos))
    {
      while pos < |src| && src[pos] != '\n'
        invariant Valid() && toks == old(toks) && LineEnd(src, pos) == LineEnd(src, old(pos))
        decreases |src| - pos
      {
        Advance();
      }
    }

    /** An escape: the backslash and whatever follows it. */
    method SkipEscape()
      requires Valid() && pos < |src|
      modifies this
      ensures Valid() && toks == old(toks) && pos == Escaped(src, old(pos))
    {
      Advance();
      if pos < |src| { Advance(); }
    }

    method SkipStringInInterp()
      requires Valid()
      modifies this
      ensures Valid() && toks == old(toks) && pos == InnerStringEnd(src, old(pos))
    {
      while pos < |src| && src[pos] != '"'
        invariant Valid() && toks == old(toks) && InnerStringEnd(src, pos) == InnerStringEnd(src, old(pos))
        decreases |src| - pos
      {
        if src[pos] == '\\' { SkipEscape(); } else { Advance(); }
      }
      if pos < |src| { Advance(); }
    }

    method LexInterpBlock() returns (closed: bool)
      requires Valid()
      modifies this
      ensures Valid() && toks == old(toks) && (pos, closed) == InterpEnd(src, old(pos), 1)
    {
      var depth := 1;
      while pos < |src| && depth > 0
        invariant depth >= 0 && Valid() && toks == old(toks) && InterpEnd(src, pos, depth) == InterpEnd(src, old(pos), 1)
        decreases |src| - pos
      {
        var d := src[pos];
        if d == '{' {
          depth := depth + 1;
          Advance();
        } else if d == '}' {
          depth := depth - 1;
          Advance();
        } else if d == '"' {
          Advance();
          SkipStringInInterp();
        } else {
          Advance();
        }
      }
      closed := depth == 0;
    }

    /** The opening quote or quotes of a string. */
    method SkipOpening() returns (triple: bool)
      requires Valid() && pos < |src| && src[pos] == '"'
      modifies this
      ensures Valid() && toks == old(toks) && (pos, triple) == Opening(src, old(pos))
    {
      Advance();
      triple := Peek() == '"' && Peek2() == '"';
      if triple {
        Advance();
        Advance();
      }
    }

    method SkipThree()
      requires Valid() && TripleAt(src, pos)
      modifies this
      ensures Valid() && toks == old(toks) && pos == old(pos) + 3
    {
      Advance();
      Advance();
      Advance();
    }

    method SkipAttrString()
      requires Valid() && pos < |src| && src[pos] == '"'
      modifies this
      ensures Valid() && toks == old(toks)
      ensures var o := Opening(src, old(pos)); pos == AttrStringEnd(src, o.0, o.1)
    {
      ghost var o := Opening(src, pos);
      var triple := SkipOpening();
      while pos < |src|
        invariant Valid() && toks == old(toks) && AttrStringEnd(src, pos, triple) == AttrStringEnd(src, o.0, o.1)
        decreases |src| - pos
      {
        var c := src[pos];
        if c == '\\' {
          SkipEscape();
        } else if c == '#' && Peek2() == '{' {
          Advance();
          Advance();
          var closed := LexInterpBlock();
        } else if triple && TripleAt(src, pos) {
          SkipThree();
          return;
        } else if !triple && c == '"' {
          Advance();
          return;
        } else if !triple && c == '\n' {
          return;
        } else {
          Advance();
        }
      }
    }

    method SkipAttribute()
      requires Valid()
      modifies this
      ensures Valid() && toks == old(toks) && pos == AttrEnd(src, old(pos), 1)
    {
      var depth := 1;
      while pos < |src| && depth > 0
        invariant depth >= 0 && Valid() && toks == old(toks) && AttrEnd(src, pos, depth) == AttrEnd(src, old(pos), 1)
        decreases |src| - pos
      {
        var c := src[pos];
        if c == '[' {
          depth := depth + 1;
          Advance();
        } else if c == ']' {
          depth := depth - 1;
          Advance();
        } else if c == '"' {
          SkipAttrString();
        } else {
          Advance();
        }
      }
    }

    method SkipWhitespaceAndComments()
      requires Valid()
      modifies this
      ensures Valid() && toks == old(toks) && old(pos) <= pos && Gap(src, old(pos), pos)
      ensures pos < |src| ==> Piece(src, pos) == pos
    {
      while pos < |src|
        invariant Valid() && toks == old(toks) && old(pos) <= pos && Gap(src, old(pos), pos)
        decreases |src| - pos
      {
        ghost var here := pos;
        var some := SkipPiece();
        if !some { return; }
        GapSteps(src, old(pos), here);
      }
    }

    /** A blank, a comment or an attribute, if there is one. */
    method SkipPiece() returns (some: bool)
      requires Valid() && pos < |src|
      modifies this
      ensures Valid() && toks == old(toks) && pos == Piece(src, old(pos)) && (some <==> old(pos) < pos)
    {
      var c := src[pos];
      some := true;
      if Blank(c) {
        Advance();
      } else if c == '#' {
        if Peek2() == '[' {
          Advance();
          Advance();
          SkipAttribute();
        } else {
          Advance();
          SkipLineComment();
        }
      } else {
        some := false;
      }
    }

    // ---------- the tokens ----------

    method LexIdentOrKeyword()
      requires Valid() && pos < |src| && IdentStart(src[pos])
      modifies this
      ensures Added(old(toks), old(pos)) && IsWord(src, toks[|toks| - 1])
    {
      var start, sl, sc := pos, line, col;
      while pos < |src| && IdentCont(src[pos])
        invariant Valid() && toks == old(toks) && start <= pos && (pos == start ==> IdentStart(src[pos]))
        invariant forall i :: start <= i < pos ==> IdentCont(src[i])
        decreases |src| - pos
      {
        Advance();
      }
      var text := src[start..pos];
      assert forall c <- text :: IdentCont(c);
      WordsAreWords(text);
      Push(WordKind(text), start, sl, sc);
    }

    method SkipDigits()
      requires Valid()
      modifies this
      ensures Valid() && toks == old(toks) && pos == DigitsEnd(src, old(pos))
    {
      while pos < |src| && (Digit(src[pos]) || src[pos] == '_')
        invariant Valid() && toks == old(toks) && DigitsEnd(src, pos) == DigitsEnd(src, old(pos))
        decreases |src| - pos
      {
        Advance();
      }
    }

    method LexNumber()
      requires Valid() && pos < |src| && Digit(src[pos])
      modifies this
      ensures Added(old(toks), old(pos))
      ensures (pos, toks[|toks| - 1].kind != ERROR) == ExponentEnd(src, FractionEnd(src, DigitsEnd(src, old(pos))))
      ensures toks[|toks| - 1].kind == (if toks[|toks| - 1].kind == ERROR then ERROR else if pos == DigitsEnd(src, old(pos)) then INT else REAL)
    {
      var start, sl, sc := pos, line, col;
      SkipDigits();
      ghost var p := pos;
      var fraction := SkipFraction();
      ghost var q := pos;
      var exponent, digits := SkipExponent();
      if digits { PushNumber(fraction || exponent, start, sl, sc); } else { PushError(start, sl, sc); }
    }

    method SkipFraction() returns (some: bool)
      requires Valid()
      modifies this
      ensures Valid() && toks == old(toks) && pos == FractionEnd(src, old(pos)) && (some <==> old(pos) < pos)
    {
      some := Peek() == '.' && Digit(Peek2());
      if some {
        Advance();
        SkipDigits();
      }
    }

    method SkipExponent() returns (some: bool, digits: bool)
      requires Valid()
      modifies this
      ensures Valid() && toks == old(toks) && (pos, digits) == ExponentEnd(src, old(pos)) && (some <==> old(pos) < pos)
    {
      some, digits := Peek() == 'e' || Peek() == 'E', true;
      if some {
        Advance();
        if Peek() == '+' || Peek() == '-' { Advance(); }
        digits := Digit(Peek());
        if digits { SkipDigits(); }
      }
    }

    method LexString()
      requires Valid() && pos < |src| && src[pos] == '"'
      modifies this
      ensures Added(old(toks), old(pos)) && toks[|toks| - 1].kind in {STRING, ERROR}
      ensures var o := Opening(src, old(pos)); (pos, toks[|toks| - 1].kind == STRING) == StringEnd(src, o.0, o.1)
    {
      var start, sl, sc := pos, line, col;
      var triple := SkipOpening();
      var closed := SkipString(triple);
      if closed { PushString(start, sl, sc); } else { PushError(start, sl, sc); }
    }

    /** The body of a string and its closing quotes. */
    method SkipString(triple: bool) returns (closed: bool)
      requires Valid()
      modifies this
      ensures Valid() && toks == old(toks) && (pos, closed) == StringEnd(src, old(pos), triple)
    {
      while pos < |src|
        invariant Valid() && toks == old(toks) && StringEnd(src, pos, triple) == StringEnd(src, old(pos), triple)
        decreases |src| - pos
      {
        var c := src[pos];
        if c == '\\' {
          SkipEscape();
        } else if c == '#' && Peek2() == '{' {
          Advance();
          Advance();
          closed := LexInterpBlock();
          if !closed { return; }
        } else if triple {
          if TripleAt(src, pos) {
            SkipThree();
            return true;
          }
          Advance();
        } else if c == '\n' {
          return false;
        } else if c == '"' {
          Advance();
          return true;
        } else {
          Advance();
        }
      }
      closed := false;
    }

    method LexChar()
      requires Valid() && pos < |src| && src[pos] == '\''
      modifies this
      ensures Added(old(toks), old(pos)) && toks[|toks| - 1].kind in {CHAR, ERROR}
      ensures (pos, toks[|toks| - 1].kind == CHAR) == CharEnd(src, old(pos))
    {
      var start, sl, sc := pos, line, col;
      var closed := SkipChar();
      if closed {
        assert src[start..pos][0] == '\'';
        Push(CHAR, start, sl, sc);
      } else {
        PushError(start, sl, sc);
      }
    }

    method SkipChar() returns (closed: bool)
      requires Valid() && pos < |src|
      modifies this
      ensures Valid() && toks == old(toks) && (pos, closed) == CharEnd(src, old(pos))
    {
      Advance();
      if pos == |src| { return false; }
      if src[pos] == '\\' {
        Advance();
        if pos == |src| { return false; }
        SkipCharEscape();
      } else {
        Advance();
        SkipContinued();
      }
      closed := Peek() == '\'';
      if closed { Advance(); }
    }

    method SkipContinued()
      requires Valid()
      modifies this
      ensures Valid() && toks == old(toks) && pos == ContinuesEnd(src, old(pos))
    {
      while pos < |src| && src[pos] != '\'' && Continues(src[pos])
        invariant Valid() && toks == old(toks) && ContinuesEnd(src, pos) == ContinuesEnd(src, old(pos))
        decreases |src| - pos
      {
        Advance();
      }
    }

    method SkipCharEscape()
      requires Valid() && pos < |src|
      modifies this
      ensures Valid() && toks == old(toks) && pos == CharEscapeEnd(src, old(pos))
    {
      if Peek() == 'u' && Peek2() == '{' {
        Advance();
        Advance();
        ghost var body := pos;
        while pos < |src| && src[pos] != '}'
          invariant Valid() && toks == old(toks) && BraceEnd(src, pos) == BraceEnd(src, body)
          decreases |src| - pos
        {
          Advance();
        }
        if pos < |src| { Advance(); }
      } else {
        Advance();
      }
    }

    static function SingleChar(c: char): (k: Kind)
      ensures k != ERROR ==> |Spell(k)| == 1 && Spell(k)[0] == c && forall x :: NoLonger(k, x)
      ensures k == ERROR <==> c !in "()[]{},:;+*%"
    {
      match c
      case '(' => LPAREN
      case ')' => RPAREN
      case '[' => LBRACKET
      case ']' => RBRACKET
      case '{' => LBRACE
      case '}' => RBRACE
      case ',' => COMMA
      case ':' => COLON
      case ';' => SEMI
      case '+' => PLUS
      case '*' => STAR
      case '%' => PERCENT
      case _ => ERROR
    }

    /** A mark whose text is just what has been read. */
    method PushMark(kind: Kind, start: nat, sl: nat, sc: nat)
      requires Valid() && start < pos && sl == LineAt(src, start) && sc == ColAt(src, start)
      requires Spell(kind) != "" && src[start..pos] == Spell(kind) && NoLonger(kind, At(src, pos))
      modifies this
      ensures Added(old(toks), start) && pos == old(pos) && toks[|toks| - 1].kind == kind
    {
      Push(kind, start, sl, sc);
    }

    /** The first character `c` of the token has been read. */
    method LexOperator(c: char, start: nat, sl: nat, sc: nat)
      requires Valid() && pos == start + 1 && src[start] == c && sl == LineAt(src, start) && sc == ColAt(src, start)
      requires !IdentStart(c) && !Digit(c) && c != '"' && c != '\'' && c != '\n'
      modifies this
      ensures Added(old(toks), start)
      ensures toks[|toks| - 1].kind == ERROR <==> BeginsNothing(c)
    {
      var single := SingleChar(c);
      if single != ERROR {
        Text(src, start, 1);
        PushMark(single, start, sl, sc);
        return;
      }
      match c {
        case '-' => MinusPair(); LexOneOrTwo('>', ARROW, MINUS, start, sl, sc);
        case '/' => SlashPair(); LexOneOrTwo('/', SLASH_SLASH, SLASH, start, sl, sc);
        case '<' => LessPair(); LexOneOrTwo('=', LE, LT, start, sl, sc);
        case '>' => GreaterPair(); LexOneOrTwo('=', GE, GT, start, sl, sc);
        case '!' => BangPair(); LexOneOrTwo('=', NEQ, BANG, start, sl, sc);
        case '|' => BarPair(); LexOneOrTwo('>', PIPE_APPLY, PIPE, start, sl, sc);
        case '=' => LexEquals(start, sl, sc);
        case '.' => LexDot(start, sl, sc);
        case _ => PushError(start, sl, sc);
      }
    }

    /** Two marks of which one begins the other. */
    static ghost predicate Pair(c: char, next: char, two: Kind, one: Kind) {
      && |Spell(one)| == 1 && Spell(one)[0] == c && |Spell(two)| == 2 && Spell(two)[0] == c && Spell(two)[1] == next
      && forall x :: NoLonger(two, x) && (x != next ==> NoLonger(one, x))
    }

    static lemma MinusPair()
      ensures Pair('-', '>', ARROW, MINUS)
    {
    }

    static lemma SlashPair()
      ensures Pair('/', '/', SLASH_SLASH, SLASH)
    {
    }

    static lemma LessPair()
      ensures Pair('<', '=', LE, LT)
    {
    }

    static lemma GreaterPair()
      ensures Pair('>', '=', GE, GT)
    {
    }

    static lemma BangPair()
      ensures Pair('!', '=', NEQ, BANG)
    {
    }

    static lemma BarPair()
      ensures Pair('|', '>', PIPE_APPLY, PIPE)
    {
    }

    /** A mark of one character, unless `next` follows and makes it one of two. */
    method LexOneOrTwo(next: char, two: Kind, one: Kind, start: nat, sl: nat, sc: nat)
      requires Valid() && pos == start + 1 && sl == LineAt(src, start) && sc == ColAt(src, start) && next != '\0'
      requires Pair(src[start], next, two, one)
      modifies this
      ensures Added(old(toks), start) && toks[|toks| - 1].kind in {two, one}
    {
      var yes := Match(next);
      Text(src, start, pos - start);
      PushMark(if yes then two else one, start, sl, sc);
    }

    method LexEquals(start: nat, sl: nat, sc: nat)
      requires Valid() && pos == start + 1 && src[start] == '=' && sl == LineAt(src, start) && sc == ColAt(src, start)
      modifies this
      ensures Added(old(toks), start) && toks[|toks| - 1].kind != ERROR
    {
      var equals := Match('=');
      if equals {
        Text(src, start, 2);
        PushMark(EQEQ, start, sl, sc);
      } else {
        var arrow := Match('>');
        Text(src, start, pos - start);
        PushMark(if arrow then FAT_ARROW else EQ, start, sl, sc);
      }
    }

    method LexDot(start: nat, sl: nat, sc: nat)
      requires Valid() && pos == start + 1 && src[start] == '.' && sl == LineAt(src, start) && sc == ColAt(src, start)
      modifies this
      ensures Added(old(toks), start) && toks[|toks| - 1].kind != ERROR
    {
      var dots := SkipDots();
      Text(src, start, dots);
      Dots(dots);
      PushMark(if dots == 3 then ELLIPSIS else if dots == 2 then DOTDOT else DOT, start, sl, sc);
    }

    /** Up to two more points after the first one. */
    method SkipDots() returns (n: nat)
      requires Valid() && 0 < pos && src[pos - 1] == '.'
      modifies this
      ensures Valid() && toks == old(toks) && 1 <= n <= 3 && pos == old(pos) + n - 1
      ensures (forall i :: old(pos) <= i < pos ==> src[i] == '.')
      ensures n < 3 ==> At(src, pos) != '.'
    {
      n := 1;
      if Peek() == '.' && Peek2() == '.' {
        Advance();
        Advance();
        n := 3;
      } else if Peek() == '.' {
        Advance();
        n := 2;
      }
    }

    static lemma Dots(n: nat)
      requires 1 <= n <= 3
      ensures Spell(if n == 3 then ELLIPSIS else if n == 2 then DOTDOT else DOT) == if n == 1 then ['.'] else if n == 2 then ['.', '.'] else ['.', '.', '.']
    {
    }

    /** One token, at a place where nothing is to be skipped. */
    method LexOne()
      requires Valid() && pos < |src|
      modifies this
      ensures Added(old(toks), old(pos))
    {
      var start, sl, sc := pos, line, col;
      var c := src[pos];
      if c == '\n' {
        Advance();
        Push(NEWLINE, start, sl, sc);
      } else if IdentStart(c) {
        LexIdentOrKeyword();
      } else if Digit(c) {
        LexNumber();
      } else if c == '"' {
        LexString();
      } else if c == '\'' {
        LexChar();
      } else {
        Advance();
        LexOperator(c, start, sl, sc);
      }
    }

    /** The tokens so far tile the source up to here. */
    ghost predicate Upto()
      reads this
    {
      Valid() && EndOf(toks) == pos && Tiles(src, toks, pos) && forall i :: 0 <= i < |toks| ==> toks[i].kind != EOF
    }

    /** The same, up to a gap that ends the source. */
    ghost predicate Ending()
      reads this
    {
      && Valid() && pos == |src| && EndOf(toks) <= pos && Tiles(src, toks, EndOf(toks)) && Gap(src, EndOf(toks), pos)
      && forall i :: 0 <= i < |toks| ==> toks[i].kind != EOF
    }

    /** The next token, unless nothing but a gap is left. */
    method LexNext() returns (more: bool)
      requires Upto()
      modifies this
      ensures if more then Upto() && old(pos) < pos else Ending()
    {
      SkipWhitespaceAndComments();
      if pos == |src| { return false; }
      ghost var before, start := toks, pos;
      LexOne();
      AddedTiles(before, start);
      more := true;
    }

    lemma AddedTiles(before: seq<Token>, start: nat)
      requires Added(before, start) && Piece(src, start) == start && EndOf(before) <= start && Tiles(src, before, EndOf(before)) && Gap(src, EndOf(before), start)
      requires forall i :: 0 <= i < |before| ==> before[i].kind != EOF
      ensures Upto()
    {
      LastOf(toks, |toks|);
      assert toks[..|toks|] == toks;
      TilesMore(src, before, toks[|toks| - 1]);
    }

    /** Every source is read to its end, and the tokens tile it; the last one marks the end. No other
        tokens do. */
    method Lex()
      requires Valid() && pos == 0 && toks == []
      modifies this
      ensures Tiles(src, toks, |src|) && EndsOnce(toks)
      ensures forall other :: Tiles(src, other, |src|) && EndsOnce(other) ==> other == toks
    {
      var more := true;
      while more && pos < |src|
        invariant if more then Upto() else Ending()
        decreases more, |src| - pos
      {
        more := LexNext();
      }
      PushEof();
      forall other | Tiles(src, other, |src|) && EndsOnce(other) ensures other == toks { OneTiling(src, other, toks); }
    }

    method PushEof()
      requires Ending()
      modifies this
      ensures Tiles(src, toks, |src|) && toks == old(toks) + [Token(EOF, |src|, |src|, line, col)]
    {
      TilesMore(src, toks, Token(EOF, pos, pos, line, col));
      toks := toks + [Token(EOF, pos, pos, line, col)];
    }
  }

  /** A word is never spelled like a mark. */
  lemma WordsAreWords(text: string)
    ensures Spell(WordKind(text)) == "" && WordKind(text) !in {INT, REAL, STRING, CHAR, NEWLINE, EOF, ERROR}
  {
  }
}
