/** What the lexer's tokens are to be, said of the source alone: where lines and columns are, what
    may lie between tokens, and how each kind of token is spelled. */
module LexRules {

  type Source = seq<char>

  datatype Kind =
    | AND | AS | ASSERT | ELSE | FALSE | FN | IF | IMPORT | LET | MATCH | NOT | OR | PUB | TEST | TRUE | TYPE
    | IDENT | UNDERSCORE | INT | REAL | STRING | CHAR | NEWLINE | EOF | ERROR
    | LPAREN | RPAREN | LBRACKET | RBRACKET | LBRACE | RBRACE | COMMA | COLON | SEMI
    | PLUS | MINUS | STAR | SLASH | SLASH_SLASH | PERCENT
    | EQ | EQEQ | NEQ | LT | GT | LE | GE | BANG | ARROW | FAT_ARROW | PIPE | PIPE_APPLY | DOT | DOTDOT | ELLIPSIS

  datatype Token = Token(kind: Kind, start: nat, end: nat, line: nat, col: nat)

  function At(src: Source, i: nat): char {
    if i < |src| then src[i] else '\0'
  }

  // ---------- lines and columns ----------

  function LineAt(src: Source, n: nat): nat
    requires n <= |src|
  {
    if n == 0 then 1 else LineAt(src, n - 1) + if src[n - 1] == '\n' then 1 else 0
  }

  function ColAt(src: Source, n: nat): nat
    requires n <= |src|
  {
    if n == 0 || src[n - 1] == '\n' then 1 else ColAt(src, n - 1) + 1
  }

  function Newlines(src: Source): set<nat> {
    set i: nat | i < |src| && src[i] == '\n'
  }

  /** The line is one more than the number of newlines before, and the column is the distance from
      the last of them, or from the beginning. */
  lemma {:induction false} LineAndColumn(src: Source, n: nat) returns (k: nat)
    requires n <= |src|
    ensures LineAt(src, n) == |Newlines(src[..n])| + 1
    ensures k <= n && ColAt(src, n) == n - k + 1
    ensures (k == 0 || src[k - 1] == '\n') && forall i :: k <= i < n ==> src[i] != '\n'
  {
    if n == 0 {
      k := 0;
    } else {
      k := LineAndColumn(src, n - 1);
      var before := Newlines(src[..n - 1]);
      if src[n - 1] == '\n' {
        k := n;
        assert Newlines(src[..n]) == before + {n - 1};
      } else {
        assert Newlines(src[..n]) == before;
      }
    }
  }

  // ---------- what is skipped ----------

  predicate Blank(c: char) {
    c == ' ' || c == '\t' || c == '\r'
  }

  /** The end of a line comment. */
  function LineEnd(src: Source, i: nat): (e: nat)
    requires i <= |src|
    ensures i <= e <= |src| && (e < |src| ==> src[e] == '\n') && forall j :: i <= j < e ==> src[j] != '\n'
    decreases |src| - i
  {
    if i == |src| || src[i] == '\n' then i else LineEnd(src, i + 1)
  }

  /** Past an escape. */
  function Escaped(src: Source, i: nat): (e: nat)
    requires i < |src|
    ensures i < e <= |src|
  {
    if i + 1 < |src| then i + 2 else i + 1
  }

  /** Past the closing quote of a string inside an interpolation, from after its opening quote. */
  function InnerStringEnd(src: Source, i: nat): (e: nat)
    requires i <= |src|
    ensures i <= e <= |src|
    decreases |src| - i
  {
    if i == |src| then i
    else if src[i] == '"' then i + 1
    else InnerStringEnd(src, if src[i] == '\\' then Escaped(src, i) else i + 1)
  }

  /** Where an interpolation that is `depth` braces deep ends, and whether it closed. */
  function InterpEnd(src: Source, i: nat, depth: nat): (r: (nat, bool))
    requires i <= |src|
    ensures i <= r.0 <= |src| && (!r.1 ==> r.0 == |src|)
    decreases |src| - i
  {
    if depth == 0 then (i, true)
    else if i == |src| then (i, false)
    else match src[i]
      case '{' => InterpEnd(src, i + 1, depth + 1)
      case '}' => InterpEnd(src, i + 1, depth - 1)
      case '"' => InterpEnd(src, InnerStringEnd(src, i + 1), depth)
      case _ => InterpEnd(src, i + 1, depth)
  }

  predicate TripleAt(src: Source, i: nat) {
    i + 2 < |src| && src[i] == '"' && src[i + 1] == '"' && src[i + 2] == '"'
  }

  /** Past the body of a string in an attribute. */
  function AttrStringEnd(src: Source, i: nat, triple: bool): (e: nat)
    requires i <= |src|
    ensures i <= e <= |src|
    decreases |src| - i
  {
    if i == |src| then i
    else if src[i] == '\\' then AttrStringEnd(src, Escaped(src, i), triple)
    else if src[i] == '#' && At(src, i + 1) == '{' then AttrStringEnd(src, InterpEnd(src, i + 2, 1).0, triple)
    else if triple && TripleAt(src, i) then i + 3
    else if !triple && src[i] == '"' then i + 1
    else if !triple && src[i] == '\n' then i
    else AttrStringEnd(src, i + 1, triple)
  }

  /** Past the opening quotes of a string, and whether there are three. */
  function Opening(src: Source, i: nat): (r: (nat, bool))
    requires i < |src|
    ensures i < r.0 <= |src|
  {
    if At(src, i + 1) == '"' && At(src, i + 2) == '"' then (i + 3, true) else (i + 1, false)
  }

  /** Past the closing bracket of an attribute that is `depth` brackets deep. Brackets in strings
      do not count. */
  function AttrEnd(src: Source, i: nat, depth: nat): (e: nat)
    requires i <= |src|
    ensures i <= e <= |src| && (depth > 0 && e < |src| ==> i < e && (src[e - 1] == ']'))
    decreases |src| - i
  {
    if depth == 0 || i == |src| then i
    else match src[i]
      case '[' => AttrEnd(src, i + 1, depth + 1)
      case ']' => AttrEnd(src, i + 1, depth - 1)
      case '"' => var o := Opening(src, i); AttrEnd(src, AttrStringEnd(src, o.0, o.1), depth)
      case _ => AttrEnd(src, i + 1, depth)
  }

  /** The end of the blank, comment or attribute at `i`; `i` itself if there is none. */
  function Piece(src: Source, i: nat): (e: nat)
    requires i <= |src|
    ensures i <= e <= |src|
  {
    if i == |src| then i
    else if Blank(src[i]) then i + 1
    else if src[i] != '#' then i
    else if At(src, i + 1) == '[' then AttrEnd(src, i + 2, 1)
    else LineEnd(src, i + 1)
  }

  /** Blanks, comments and attributes, and nothing else, from `a` to `b`. */
  ghost predicate Gap(src: Source, a: nat, b: nat)
    requires a <= |src|
    decreases |src| - a
  {
    a == b || (a < Piece(src, a) <= b && Gap(src, Piece(src, a), b))
  }

  lemma {:induction false} GapSteps(src: Source, a: nat, b: nat)
    requires a <= b <= |src| && Gap(src, a, b) && Piece(src, b) > b
    ensures Gap(src, a, Piece(src, b))
    decreases |src| - a
  {
    if a != b { GapSteps(src, Piece(src, a), b); }
  }

  // ---------- how tokens are spelled ----------

  predicate Digit(c: char) { '0' <= c <= '9' }

  predicate Letter(c: char) { 'a' <= c <= 'z' || 'A' <= c <= 'Z' }

  predicate IdentStart(c: char) { Letter(c) || c == '_' }

  predicate IdentCont(c: char) { Letter(c) || Digit(c) || c == '_' }

  /** A word is a keyword, the wildcard, or a name. */
  function WordKind(s: string): Kind {
    if s == "and" then AND else if s == "as" then AS else if s == "assert" then ASSERT
    else if s == "else" then ELSE else if s == "false" then FALSE else if s == "fn" then FN
    else if s == "if" then IF else if s == "import" then IMPORT else if s == "let" then LET
    else if s == "match" then MATCH else if s == "not" then NOT else if s == "or" then OR
    else if s == "pub" then PUB else if s == "test" then TEST else if s == "true" then TRUE
    else if s == "type" then TYPE else if s == "_" then UNDERSCORE else IDENT
  }

  /** The text of an operator or mark; nothing for the other kinds. */
  function Spell(k: Kind): string {
    match k
    case LPAREN => "(" case RPAREN => ")" case LBRACKET => "[" case RBRACKET => "]" case LBRACE => "{" case RBRACE => "}"
    case COMMA => "," case COLON => ":" case SEMI => ";" case PLUS => "+" case STAR => "*" case PERCENT => "%"
    case MINUS => "-" case ARROW => "->" case SLASH => "/" case SLASH_SLASH => "//"
    case LT => "<" case LE => "<=" case GT => ">" case GE => ">=" case BANG => "!" case NEQ => "!="
    case PIPE => "|" case PIPE_APPLY => "|>" case EQ => "=" case EQEQ => "==" case FAT_ARROW => "=>"
    case DOT => "." case DOTDOT => ".." case ELLIPSIS => "..."
    case _ => ""
  }

  /** The character after a mark does not make it a longer one. */
  predicate NoLonger(k: Kind, next: char) {
    match k
    case MINUS => next != '>'
    case SLASH => next != '/'
    case LT => next != '='
    case GT => next != '='
    case BANG => next != '='
    case PIPE => next != '>'
    case EQ => next != '=' && next != '>'
    case DOT => next != '.'
    case DOTDOT => next != '.'
    case _ => true
  }

  predicate Begins(src: Source, i: nat, s: string) {
    i + |s| <= |src| && src[i..i + |s|] == s
  }

  lemma SameLetter(src: Source, i: nat, s: string, j: nat)
    requires Begins(src, i, s)
    ensures j < |s| ==> At(src, i + j) == At(s, j)
  {
    assert j < |s| ==> src[i..i + |s|][j] == src[i + j];
  }

  /** No longer mark begins where a mark does. */
  lemma LongestMark(src: Source, i: nat, k: Kind, other: Kind)
    requires Spell(k) != "" && Begins(src, i, Spell(k)) && NoLonger(k, At(src, i + |Spell(k)|)) && Begins(src, i, Spell(other))
    ensures |Spell(other)| <= |Spell(k)|
  {
    var text, mark := Spell(other), Spell(k);
    SameLetter(src, i, mark, 0);
    SameLetter(src, i, text, 0);
    SameLetter(src, i, text, |mark|);
  }

  /** The text of a token is what its kind stands for, and no longer token begins where it does. */
  ghost predicate Spelled(src: Source, t: Token)
    requires t.start <= t.end <= |src|
  {
    var text := src[t.start..t.end];
    if Spell(t.kind) != "" then text == Spell(t.kind) && NoLonger(t.kind, At(src, t.end))
    else match t.kind
      case EOF => t.start == t.end == |src|
      case NEWLINE => text == "\n"
      case INT => IsNumber(src, t) && t.end == DigitsEnd(src, t.start)
      case REAL => IsNumber(src, t) && t.end > DigitsEnd(src, t.start)
      case STRING => text != "" && text[0] == '"' && StringEnd(src, Opening(src, t.start).0, Opening(src, t.start).1) == (t.end, true)
      case CHAR => text != "" && text[0] == '\'' && CharEnd(src, t.start) == (t.end, true)
      case ERROR => text != "" && IsError(src, t)
      case _ => IsWord(src, t)
  }

  /** What is no token: a number whose exponent has no digits, a string or an interpolation that is
      not closed, a character that is not, or one character that begins nothing. */
  predicate IsError(src: Source, t: Token)
    requires t.start < t.end <= |src|
  {
    var c := src[t.start];
    if Digit(c) then ExponentEnd(src, FractionEnd(src, DigitsEnd(src, t.start))) == (t.end, false)
    else if c == '"' then StringEnd(src, Opening(src, t.start).0, Opening(src, t.start).1) == (t.end, false)
    else if c == '\'' then CharEnd(src, t.start) == (t.end, false)
    else t.end == t.start + 1 && BeginsNothing(c)
  }

  predicate BeginsNothing(c: char) {
    !IdentStart(c) && c != '\n' && c !in "()[]{},:;+*%-/<>!|=."
  }

  /** The mark that is spelled by the one character. */
  function MarkOf(c: char): Kind {
    match c
    case '(' => LPAREN case ')' => RPAREN case '[' => LBRACKET case ']' => RBRACKET case '{' => LBRACE case '}' => RBRACE
    case ',' => COMMA case ':' => COLON case ';' => SEMI case '+' => PLUS case '*' => STAR case '%' => PERCENT
    case '-' => MINUS case '/' => SLASH case '<' => LT case '>' => GT case '!' => BANG case '|' => PIPE case '=' => EQ
    case '.' => DOT case _ => ERROR
  }

  lemma OneMark(c: char)
    ensures c in "()[]{},:;+*%-/<>!|=." ==> MarkOf(c) != ERROR
  {
  }

  lemma SpellsOne(c: char)
    ensures MarkOf(c) != ERROR ==> Spell(MarkOf(c)) == [c]
  {
  }

  lemma FirstOfMark(k: Kind)
    ensures Spell(k) != "" ==> Spell(k)[0] in "()[]{},:;+*%-/<>!|=."
  {
  }

  /** Which means that no mark begins with it, nor a word, nor is it a newline. */
  lemma NoMark(c: char)
    ensures BeginsNothing(c) <==> !IdentStart(c) && c != '\n' && forall k :: Spell(k) != "" ==> Spell(k)[0] != c
  {
    OneMark(c);
    SpellsOne(c);
    forall k ensures Spell(k) != "" ==> Spell(k)[0] in "()[]{},:;+*%-/<>!|=." { FirstOfMark(k); }
  }

  /** A byte in the middle of a character that takes several. */
  predicate Continues(c: char) {
    0x80 <= c as int < 0xC0
  }

  function ContinuesEnd(src: Source, i: nat): (e: nat)
    requires i <= |src|
    ensures i <= e <= |src|
    decreases |src| - i
  {
    if i < |src| && src[i] != '\'' && Continues(src[i]) then ContinuesEnd(src, i + 1) else i
  }

  /** Past the brace that closes a code point. */
  function BraceEnd(src: Source, i: nat): (e: nat)
    requires i <= |src|
    ensures i <= e <= |src|
    decreases |src| - i
  {
    if i == |src| then i else if src[i] == '}' then i + 1 else BraceEnd(src, i + 1)
  }

  /** Past what follows the backslash in a character. */
  function CharEscapeEnd(src: Source, i: nat): (e: nat)
    requires i < |src|
    ensures i < e <= |src|
  {
    if src[i] == 'u' && At(src, i + 1) == '{' then BraceEnd(src, i + 2) else i + 1
  }

  /** Past the closing quote of a character literal, and whether it has one. */
  function CharEnd(src: Source, i: nat): (r: (nat, bool))
    requires i < |src|
    ensures i < r.0 <= |src|
  {
    if i + 1 == |src| then (i + 1, false)
    else if src[i + 1] == '\\' && i + 2 == |src| then (i + 2, false)
    else
      var e := if src[i + 1] == '\\' then CharEscapeEnd(src, i + 2) else ContinuesEnd(src, i + 2);
      if At(src, e) == '\'' then (e + 1, true) else (e, false)
  }

  /** A run of letters, digits and underscores as long as can be. */
  predicate IsWord(src: Source, t: Token)
    requires t.start <= t.end <= |src|
  {
    var text := src[t.start..t.end];
    && text != "" && IdentStart(text[0]) && (forall c <- text :: IdentCont(c)) && !IdentCont(At(src, t.end))
    && t.kind == WordKind(text)
  }

  /** The end of the digits and separators from `i` on. */
  function DigitsEnd(src: Source, i: nat): (e: nat)
    requires i <= |src|
    ensures i <= e <= |src|
    decreases |src| - i
  {
    if i < |src| && (Digit(src[i]) || src[i] == '_') then DigitsEnd(src, i + 1) else i
  }

  /** A point begins a fraction only before a digit, so that ranges and fields can follow a number. */
  function FractionEnd(src: Source, i: nat): (e: nat)
    requires i <= |src|
    ensures i <= e <= |src|
  {
    if At(src, i) == '.' && Digit(At(src, i + 1)) then DigitsEnd(src, i + 1) else i
  }

  /** Past an exponent, and whether it has digits if there is one. */
  function ExponentEnd(src: Source, i: nat): (r: (nat, bool))
    requires i <= |src|
    ensures i <= r.0 <= |src|
  {
    if At(src, i) != 'e' && At(src, i) != 'E' then (i, true) else
      var j := if At(src, i + 1) == '+' || At(src, i + 1) == '-' then i + 2 else i + 1;
      if Digit(At(src, j)) then (DigitsEnd(src, j), true) else (j, false)
  }

  predicate IsNumber(src: Source, t: Token)
    requires t.start <= t.end <= |src|
  {
    Digit(At(src, t.start)) && ExponentEnd(src, FractionEnd(src, DigitsEnd(src, t.start))) == (t.end, true)
  }

  /** Past the closing quote of a string whose body begins at `i`, and whether it is closed. */
  function StringEnd(src: Source, i: nat, triple: bool): (r: (nat, bool))
    requires i <= |src|
    ensures i <= r.0 <= |src|
    decreases |src| - i
  {
    if i == |src| then (i, false)
    else if src[i] == '\\' then StringEnd(src, Escaped(src, i), triple)
    else if src[i] == '#' && At(src, i + 1) == '{' then
      var r := InterpEnd(src, i + 2, 1);
      if r.1 then StringEnd(src, r.0, triple) else r
    else if triple then if TripleAt(src, i) then (i + 3, true) else StringEnd(src, i + 1, triple)
    else if src[i] == '\n' then (i, false)
    else if src[i] == '"' then (i + 1, true)
    else StringEnd(src, i + 1, triple)
  }

  /** The tokens are in order and do not overlap; all that can be skipped between them is; each begins
      at the line and column that it says, and is spelled as its kind. */
  ghost predicate Tiles(src: Source, toks: seq<Token>, upto: nat)
    decreases |toks|
  {
    upto <= |src| &&
      if toks == [] then upto == 0 else
        var t, before := toks[|toks| - 1], toks[..|toks| - 1];
        && t.end == upto && t.start <= t.end && (t.kind != EOF ==> t.start < t.end)
        && t.line == LineAt(src, t.start) && t.col == ColAt(src, t.start) && Spelled(src, t) && Piece(src, t.start) == t.start
        && Tiles(src, before, EndOf(before)) && EndOf(before) <= t.start && Gap(src, EndOf(before), t.start)
  }

  function EndOf(toks: seq<Token>): nat {
    if toks == [] then 0 else toks[|toks| - 1].end
  }

  /** One more token, after a gap. */
  lemma TilesMore(src: Source, toks: seq<Token>, t: Token)
    requires EndOf(toks) <= t.start <= t.end <= |src| && Tiles(src, toks, EndOf(toks)) && Gap(src, EndOf(toks), t.start)
    requires (t.kind != EOF ==> t.start < t.end) && t.line == LineAt(src, t.start) && t.col == ColAt(src, t.start) && Spelled(src, t)
    requires Piece(src, t.start) == t.start
    ensures Tiles(src, toks + [t], t.end)
  {
    assert (toks + [t])[..|toks|] == toks;
  }

  /** The text of a token of one, two or three characters. */
  lemma Text(src: Source, i: nat, n: nat)
    requires 1 <= n <= 3 && i + n <= |src|
    ensures src[i..i + n] == if n == 1 then [src[i]] else if n == 2 then [src[i], src[i + 1]] else [src[i], src[i + 1], src[i + 2]]
  {
  }

  // ---------- there is one way to do it ----------

  /** What each kind of token begins with. */
  lemma FirstCharacter(src: Source, t: Token)
    requires t.start < t.end <= |src| && Spelled(src, t)
    ensures var c := src[t.start];
      if IdentStart(c) then IsWord(src, t) && Spell(t.kind) == ""
      else if Digit(c) then t.kind in {INT, REAL, ERROR}
      else if c == '"' then t.kind in {STRING, ERROR}
      else if c == '\'' then t.kind in {CHAR, ERROR}
      else if c == '\n' then t.kind == NEWLINE
      else if BeginsNothing(c) then t.kind == ERROR
      else Spell(t.kind) != ""
  {
    assert src[t.start..t.end][0] == src[t.start];
    if Spell(t.kind) != "" { assert Spell(t.kind)[0] == src[t.start]; }
  }

  /** A run of letters, digits and underscores from `a` to `b` that does not go on. */
  predicate WordTo(src: Source, a: nat, b: nat)
    requires a <= b <= |src|
  {
    (forall i :: a <= i < b ==> IdentCont(src[i])) && !IdentCont(At(src, b))
  }

  lemma WordsEnd(src: Source, t: Token)
    requires t.start < t.end <= |src| && IsWord(src, t)
    ensures WordTo(src, t.start, t.end) && t.kind == WordKind(src[t.start..t.end])
  {
    forall i | t.start <= i < t.end ensures IdentCont(src[i]) {
      assert src[t.start..t.end][i - t.start] == src[i];
    }
  }

  lemma OneEnd(src: Source, a: nat, b: nat, c: nat)
    requires a <= b <= |src| && a <= c <= |src| && WordTo(src, a, b) && WordTo(src, a, c)
    ensures b == c
  {
  }

  lemma SameWord(src: Source, t: Token, u: Token)
    requires t.start == u.start && t.start < t.end <= |src| && u.start < u.end <= |src| && IsWord(src, t) && IsWord(src, u)
    ensures t.end == u.end && t.kind == u.kind
  {
    WordsEnd(src, t);
    WordsEnd(src, u);
    OneEnd(src, t.start, t.end, u.end);
  }

  lemma SameMark(src: Source, t: Token, u: Token)
    requires t.start == u.start && t.start < t.end <= |src| && u.start < u.end <= |src|
    requires Spell(t.kind) != "" && Spell(u.kind) != "" && Spelled(src, t) && Spelled(src, u)
    ensures t.end == u.end && t.kind == u.kind
  {
    LongestMark(src, t.start, t.kind, u.kind);
    LongestMark(src, t.start, u.kind, t.kind);
    SameSpelling(t.kind, u.kind);
  }

  lemma SameSpelling(k: Kind, l: Kind)
    requires Spell(k) == Spell(l) != ""
    ensures k == l
  {
    assert |Spell(k)| == |Spell(l)| && Spell(k)[0] == Spell(l)[0];
    if |Spell(k)| > 1 { assert Spell(k)[1] == Spell(l)[1]; }
  }

  /** The source says which token begins at a place: its kind, errors included, and its end. */
  lemma OneToken(src: Source, t: Token, u: Token)
    requires t.start == u.start && t.start < t.end <= |src| && u.start < u.end <= |src| && Spelled(src, t) && Spelled(src, u)
    ensures t.kind == u.kind && t.end == u.end
  {
    FirstCharacter(src, t);
    FirstCharacter(src, u);
    var c := src[t.start];
    if IdentStart(c) {
      SameWord(src, t, u);
    } else if c == '\n' {
      assert |src[t.start..t.end]| == 1 && |src[u.start..u.end]| == 1;
    } else if Spell(t.kind) != "" {
      SameMark(src, t, u);
    }
  }

  /** Where what is skipped ends is determined too. */
  lemma {:induction false} OneGap(src: Source, a: nat, b: nat, c: nat)
    requires a <= b <= |src| && a <= c <= |src| && Gap(src, a, b) && Gap(src, a, c) && Piece(src, b) == b && Piece(src, c) == c
    ensures b == c
    decreases |src| - a
  {
    if a != b && a != c { OneGap(src, Piece(src, a), b, c); }
  }

  lemma {:induction false} TilesFirst(src: Source, toks: seq<Token>, upto: nat, k: nat)
    requires Tiles(src, toks, upto) && k <= |toks|
    ensures Tiles(src, toks[..k], EndOf(toks[..k]))
    decreases |toks|
  {
    if k < |toks| {
      TilesFirst(src, toks[..|toks| - 1], EndOf(toks[..|toks| - 1]), k);
      assert toks[..|toks| - 1][..k] == toks[..k];
    } else {
      assert toks[..k] == toks;
    }
  }

  /** The last token is the only one that marks the end. */
  predicate EndsOnce(toks: seq<Token>) {
    toks != [] && forall i :: 0 <= i < |toks| ==> (toks[i].kind == EOF <==> i == |toks| - 1)
  }

  /** What the tiles say of the last token. */
  lemma TopTile(src: Source, before: seq<Token>, t: Token)
    requires Tiles(src, before + [t], t.end)
    ensures EndOf(before) <= t.start <= t.end <= |src| && Gap(src, EndOf(before), t.start) && Piece(src, t.start) == t.start
    ensures t.line == LineAt(src, t.start) && t.col == ColAt(src, t.start) && (t.kind != EOF ==> t.start < t.end)
    ensures Spelled(src, t) && (t.kind == EOF <==> t.start == |src|) && (t.kind == EOF ==> t.end == |src|)
  {
    assert (before + [t])[..|before|] == before;
  }

  lemma NextToken(src: Source, before: seq<Token>, t: Token, u: Token)
    requires Tiles(src, before + [t], t.end) && Tiles(src, before + [u], u.end)
    ensures t == u
  {
    TopTile(src, before, t);
    TopTile(src, before, u);
    OneGap(src, EndOf(before), t.start, u.start);
    if t.kind != EOF && u.kind != EOF { OneToken(src, t, u); }
  }

  lemma Extended(src: Source, toks: seq<Token>, before: seq<Token>, k: nat)
    requires Tiles(src, toks, |src|) && 0 < k <= |toks| && before == toks[..k - 1]
    ensures toks[..k] == before + [toks[k - 1]] && Tiles(src, before + [toks[k - 1]], toks[k - 1].end)
  {
    TilesFirst(src, toks, |src|, k);
    LastOf(toks, k);
  }

  lemma LastOf(toks: seq<Token>, k: nat)
    requires 0 < k <= |toks|
    ensures toks[..k] == toks[..k - 1] + [toks[k - 1]] && EndOf(toks[..k]) == toks[k - 1].end
  {
  }

  lemma {:induction false} SameBeginning(src: Source, a: seq<Token>, b: seq<Token>, k: nat)
    requires Tiles(src, a, |src|) && Tiles(src, b, |src|) && k <= |a| && k <= |b|
    ensures a[..k] == b[..k]
  {
    if k > 0 {
      SameBeginning(src, a, b, k - 1);
      Extended(src, a, a[..k - 1], k);
      Extended(src, b, a[..k - 1], k);
      NextToken(src, a[..k - 1], a[k - 1], b[k - 1]);
    }
  }

  /** A source has one sequence of tokens. */
  lemma OneTiling(src: Source, a: seq<Token>, b: seq<Token>)
    requires Tiles(src, a, |src|) && Tiles(src, b, |src|) && EndsOnce(a) && EndsOnce(b)
    ensures a == b
  {
    var k := if |a| < |b| then |a| else |b|;
    SameBeginning(src, a, b, k);
    assert a[..k][k - 1] == b[..k][k - 1];
    assert a[..|a|] == a && b[..|b|] == b;
  }
}
