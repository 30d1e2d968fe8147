/** Strings, attributes and numbers, one character at a time: where each of them ends. */
module LexShapes {
  import opened LexRules

  // ---------- strings ----------

  /** What a character of a string is: text, escaped, the brace of an interpolation, or code so many
      braces deep; in code there may be strings again. */
  datatype State = Text | Escape | Hash | Code(depth: nat) | Quote(depth: nat) | QuoteEscape(depth: nat)

  /** What the next character is. */
  function Next(src: Source, k: nat, s: State): State
    requires k < |src|
  {
    var c := src[k];
    match s
    case Text => if c == '\\' then Escape else if c == '#' && At(src, k + 1) == '{' then Hash else Text
    case Escape => Text
    case Hash => Code(1)
    case Code(d) =>
      if c == '{' then Code(d + 1)
      else if c == '}' then if d <= 1 then Text else Code(d - 1)
      else if c == '"' then Quote(d)
      else Code(d)
    case Quote(d) => if c == '\\' then QuoteEscape(d) else if c == '"' then Code(d) else Quote(d)
    case QuoteEscape(d) => Quote(d)
  }

  /** What the character at `k` is, if the one at `i` is an `s`. */
  function StateAt(src: Source, i: nat, s: State, k: nat): State
    requires i <= k <= |src|
    decreases k - i
  {
    if k == i then s else StateAt(src, i + 1, Next(src, i, s), k)
  }

  lemma {:induction false} GoesOn(src: Source, i: nat, s: State, m: nat, k: nat)
    requires i <= m <= k <= |src|
    ensures StateAt(src, i, s, k) == StateAt(src, m, StateAt(src, i, s, m), k)
    decreases m - i
  {
    if i < m { GoesOn(src, i + 1, Next(src, i, s), m, k); }
  }

  /** From `i` on there is no text before `e`. */
  ghost predicate NoText(src: Source, i: nat, s: State, e: nat)
    requires i <= e <= |src|
  {
    forall k :: i <= k < e ==> !StateAt(src, i, s, k).Text?
  }

  lemma NoTextBoth(src: Source, i: nat, s: State, m: nat, e: nat)
    requires i <= m <= e <= |src| && NoText(src, i, s, m) && NoText(src, m, StateAt(src, i, s, m), e)
    ensures NoText(src, i, s, e)
  {
    forall k | i <= k < e ensures !StateAt(src, i, s, k).Text? {
      if m <= k { GoesOn(src, i, s, m, k); }
    }
  }

  lemma OneCharacter(src: Source, i: nat, s: State)
    requires i < |src| && !s.Text?
    ensures NoText(src, i, s, i + 1) && StateAt(src, i, s, i + 1) == Next(src, i, s)
  {
    forall k | i <= k < i + 1 ensures !StateAt(src, i, s, k).Text? { assert k == i; }
  }

  /** A string inside an interpolation. */
  lemma {:induction false} InnerScan(src: Source, i: nat, d: nat)
    requires i <= |src|
    ensures var e := InnerStringEnd(src, i);
      && NoText(src, i, Quote(d), e)
      && (StateAt(src, i, Quote(d), e) == Code(d) || (e == |src| && !StateAt(src, i, Quote(d), e).Text?))
    decreases |src| - i
  {
    var e := InnerStringEnd(src, i);
    if i < |src| {
      OneCharacter(src, i, Quote(d));
      if src[i] == '\\' && i + 1 < |src| {
        OneCharacter(src, i + 1, QuoteEscape(d));
        NoTextBoth(src, i, Quote(d), i + 1, i + 2);
        GoesOn(src, i, Quote(d), i + 1, i + 2);
        InnerScan(src, i + 2, d);
        NoTextBoth(src, i, Quote(d), i + 2, e);
        GoesOn(src, i, Quote(d), i + 2, e);
      } else if src[i] != '"' && src[i] != '\\' {
        InnerScan(src, i + 1, d);
        NoTextBoth(src, i, Quote(d), i + 1, e);
        GoesOn(src, i, Quote(d), i + 1, e);
      }
    }
  }

  /** An interpolation ends where text begins again. */
  lemma {:induction false} InterpScan(src: Source, i: nat, d: nat)
    requires i <= |src| && d > 0
    ensures var r := InterpEnd(src, i, d);
      && NoText(src, i, Code(d), r.0)
      && (r.1 <==> StateAt(src, i, Code(d), r.0).Text?)
    decreases |src| - i
  {
    var r := InterpEnd(src, i, d);
    if i < |src| {
      OneCharacter(src, i, Code(d));
      var s := Next(src, i, Code(d));
      if src[i] == '"' {
        var m := InnerStringEnd(src, i + 1);
        InnerScan(src, i + 1, d);
        NoTextBoth(src, i, Code(d), i + 1, m);
        GoesOn(src, i, Code(d), i + 1, m);
        if StateAt(src, i + 1, Quote(d), m) == Code(d) {
          InterpScan(src, m, d);
          NoTextBoth(src, i, Code(d), m, r.0);
          GoesOn(src, i, Code(d), m, r.0);
        }
      } else if !s.Text? {
        InterpScan(src, i + 1, s.depth);
        NoTextBoth(src, i, Code(d), i + 1, r.0);
        GoesOn(src, i, Code(d), i + 1, r.0);
      }
    }
  }

  /** Where the text of a string can end: at its quotes, and on one line at the end of the line. */
  predicate EndsAt(src: Source, k: nat, triple: bool) {
    if triple then TripleAt(src, k) else At(src, k) == '"' || At(src, k) == '\n'
  }

  /** The string ends at `e`: there the text ends, and before it nowhere. */
  ghost predicate TextEnds(src: Source, i: nat, triple: bool, e: nat)
    requires i <= e <= |src|
  {
    && (forall k :: i <= k < e ==> !(StateAt(src, i, Text, k).Text? && EndsAt(src, k, triple)))
    && (e < |src| ==> StateAt(src, i, Text, e).Text? && EndsAt(src, e, triple))
  }

  lemma TextGoesOn(src: Source, i: nat, triple: bool, m: nat, e: nat)
    requires i <= m <= e <= |src| && TextEnds(src, m, triple, e)
    requires StateAt(src, i, Text, m) == Text && forall k :: i <= k < m ==> !(StateAt(src, i, Text, k).Text? && EndsAt(src, k, triple))
    ensures TextEnds(src, i, triple, e)
  {
    forall k | i <= k < e ensures !(StateAt(src, i, Text, k).Text? && EndsAt(src, k, triple)) {
      if m <= k { GoesOn(src, i, Text, m, k); }
    }
    GoesOn(src, i, Text, m, e);
  }

  /** The piece of text, escape or interpolation at `i`. */
  lemma PieceOfText(src: Source, i: nat, triple: bool, m: nat)
    requires i < |src| && !EndsAt(src, i, triple)
    requires if src[i] == '\\' then m == Escaped(src, i)
             else if src[i] == '#' && At(src, i + 1) == '{' then m == InterpEnd(src, i + 2, 1).0
             else m == i + 1
    ensures i < m <= |src| && forall k :: i <= k < m ==> !(StateAt(src, i, Text, k).Text? && EndsAt(src, k, triple))
    ensures StateAt(src, i, Text, m) == Text || (m == |src| && (src[i] == '\\' || (src[i] == '#' && At(src, i + 1) == '{' && !InterpEnd(src, i + 2, 1).1)))
    ensures src[i] == '#' && At(src, i + 1) == '{' ==> (StateAt(src, i, Text, m) == Text <==> InterpEnd(src, i + 2, 1).1)
  {
    assert StateAt(src, i, Text, i + 1) == Next(src, i, Text);
    if src[i] == '\\' {
      if i + 1 < |src| { EscapedCharacter(src, i); }
    } else if src[i] == '#' && At(src, i + 1) == '{' {
      CodeBegins(src, i);
      InterpScan(src, i + 2, 1);
      GoesOn(src, i, Text, i + 2, m);
      forall k | i <= k < m ensures k == i || !StateAt(src, i, Text, k).Text? {
        if i + 2 <= k { GoesOn(src, i, Text, i + 2, k); }
      }
    }
  }

  lemma EscapedCharacter(src: Source, i: nat)
    requires i + 1 < |src| && src[i] == '\\'
    ensures StateAt(src, i, Text, i + 1) == Escape && StateAt(src, i, Text, i + 2) == Text
  {
    GoesOn(src, i, Text, i + 1, i + 2);
    assert StateAt(src, i + 1, Escape, i + 2) == Next(src, i + 1, Escape);
  }

  lemma CodeBegins(src: Source, i: nat)
    requires i + 1 < |src| && src[i] == '#' && src[i + 1] == '{'
    ensures StateAt(src, i, Text, i + 1) == Hash && StateAt(src, i, Text, i + 2) == Code(1)
  {
    GoesOn(src, i, Text, i + 1, i + 2);
    assert StateAt(src, i + 1, Hash, i + 2) == Next(src, i + 1, Hash);
  }

  function NextPiece(src: Source, i: nat): (m: nat)
    requires i < |src|
  {
    if src[i] == '\\' then Escaped(src, i)
    else if src[i] == '#' && At(src, i + 1) == '{' then InterpEnd(src, i + 2, 1).0
    else i + 1
  }

  /** A string literal goes up to the first quote of its kind in its text, and no such quote is
      escaped or inside an interpolation; without one, or with a line's end before it, it is not closed. */
  lemma {:induction false} StringByCharacter(src: Source, i: nat, triple: bool) returns (e: nat)
    requires i <= |src|
    ensures i <= e <= |src| && TextEnds(src, i, triple, e)
    ensures StringEnd(src, i, triple) ==
      if e == |src| then (e, false) else if triple then (e + 3, true) else if src[e] == '"' then (e + 1, true) else (e, false)
    decreases |src| - i
  {
    if i == |src| || EndsAt(src, i, triple) {
      e := i;
    } else {
      var m := NextPiece(src, i);
      PieceOfText(src, i, triple, m);
      if StateAt(src, i, Text, m) == Text {
        e := StringByCharacter(src, m, triple);
        TextGoesOn(src, i, triple, m, e);
      } else {
        e := |src|;
      }
    }
  }

  /** A string in an attribute ends where a string literal would, at a line's end without an error. */
  lemma {:induction false} AttrStringByCharacter(src: Source, i: nat, triple: bool) returns (e: nat)
    requires i <= |src|
    ensures i <= e <= |src| && TextEnds(src, i, triple, e)
    ensures AttrStringEnd(src, i, triple) == if e == |src| then e else if triple then e + 3 else if src[e] == '"' then e + 1 else e
    decreases |src| - i
  {
    if i == |src| || EndsAt(src, i, triple) {
      e := i;
    } else {
      var m := NextPiece(src, i);
      PieceOfText(src, i, triple, m);
      if StateAt(src, i, Text, m) == Text {
        e := AttrStringByCharacter(src, m, triple);
        TextGoesOn(src, i, triple, m, e);
      } else {
        e := |src|;
      }
    }
  }

  // ---------- attributes ----------

  /** How many brackets deep the place `k` is, if `i` is `d` deep. */
  function Depth(src: Source, i: nat, d: int, k: nat): int
    requires i <= k <= |src|
    decreases k - i
  {
    if k == i then d else Depth(src, i + 1, if src[i] == '[' then d + 1 else if src[i] == ']' then d - 1 else d, k)
  }

  /** An attribute without strings ends at the bracket that balances the first. */
  lemma {:induction false} AttributeBalances(src: Source, i: nat, d: nat)
    requires i <= |src| && d > 0 && forall k :: i <= k < AttrEnd(src, i, d) ==> src[k] != '"'
    ensures var e := AttrEnd(src, i, d);
      && (forall k :: i <= k < e ==> Depth(src, i, d, k) > 0)
      && (Depth(src, i, d, e) == 0 || (e == |src| && Depth(src, i, d, e) > 0))
    decreases |src| - i
  {
    var e := AttrEnd(src, i, d);
    if i < |src| {
      FurtherEnd(src, i, d);
      var d1 := if src[i] == '[' then d + 1 else if src[i] == ']' then d - 1 else d;
      if d1 > 0 {
        AttributeBalances(src, i + 1, d1);
        forall k | i <= k < e ensures Depth(src, i, d, k) > 0 {
          if k > i { assert Depth(src, i, d, k) == Depth(src, i + 1, d1, k); }
        }
      }
    }
  }

  lemma FurtherEnd(src: Source, i: nat, d: nat)
    requires i < |src| && d > 0
    ensures AttrEnd(src, i, d) > i
    ensures src[i] != '"' ==> AttrEnd(src, i, d) == AttrEnd(src, i + 1, if src[i] == '[' then d + 1 else if src[i] == ']' then d - 1 else d)
  {
  }

  // ---------- numbers ----------

  /** The digits of a number, with underscores among them, go on as far as there are any. */
  lemma {:induction false} DigitsRun(src: Source, i: nat)
    requires i <= |src|
    ensures var e := DigitsEnd(src, i);
      && (forall k :: i <= k < e ==> '0' <= src[k] <= '9' || src[k] == '_')
      && (e < |src| ==> !('0' <= src[e] <= '9') && src[e] != '_')
    decreases |src| - i
  {
    if i < |src| && (Digit(src[i]) || src[i] == '_') { DigitsRun(src, i + 1); }
  }

  // ---------- what is skipped ----------

  /** Something is skipped exactly at a blank, a tab, a carriage return and a hash. */
  lemma GapBegins(src: Source, i: nat)
    requires i <= |src|
    ensures Piece(src, i) > i <==> i < |src| && src[i] in " \t\r#"
  {
    if i < |src| && src[i] == '#' && At(src, i + 1) == '[' { AttrGoesOn(src, i + 2, 1); }
  }

  lemma AttrGoesOn(src: Source, i: nat, d: nat)
    requires i <= |src|
    ensures AttrEnd(src, i, d) >= i
  {
  }

  lemma {:induction false} BlanksAreSkipped(src: Source, a: nat, b: nat)
    requires a <= b <= |src| && forall k :: a <= k < b ==> src[k] in " \t\r"
    ensures Gap(src, a, b)
    decreases b - a
  {
    if a < b { BlanksAreSkipped(src, a + 1, b); }
  }

  /** A comment, which is a hash without a bracket after it, goes up to the end of its line. */
  lemma CommentIsSkipped(src: Source, a: nat, b: nat)
    requires a < b <= |src| && src[a] == '#' && At(src, a + 1) != '[' && (b < |src| ==> src[b] == '\n')
    requires forall k :: a < k < b ==> src[k] != '\n'
    ensures Piece(src, a) == b
  {
  }

  // ---------- words ----------

  predicate InWord(c: char) {
    'a' <= c <= 'z' || 'A' <= c <= 'Z' || '0' <= c <= '9' || c == '_'
  }

  /** The spelling of a keyword. */
  function Keyword(k: Kind): string {
    match k
    case AND => "and" case AS => "as" case ASSERT => "assert" case ELSE => "else" case FALSE => "false" case FN => "fn"
    case IF => "if" case IMPORT => "import" case LET => "let" case MATCH => "match" case NOT => "not" case OR => "or"
    case PUB => "pub" case TEST => "test" case TRUE => "true" case TYPE => "type" case UNDERSCORE => "_" case _ => ""
  }

  lemma WordOfKeyword(s: string)
    requires s != ""
    ensures var k := WordKind(s); if k == IDENT then forall other :: Keyword(other) != s else Keyword(k) == s
  {
    KindSpells(s);
    forall other | Keyword(other) == s ensures WordKind(s) == other { KeywordIsWord(other); }
  }

  lemma KindSpells(s: string)
    ensures WordKind(s) != IDENT ==> Keyword(WordKind(s)) == s
  {
    match WordKind(s)
    case AND => assert s == "and";
    case AS => assert s == "as";
    case ASSERT => assert s == "assert";
    case ELSE => assert s == "else";
    case FALSE => assert s == "false";
    case FN => assert s == "fn";
    case IF => assert s == "if";
    case IMPORT => assert s == "import";
    case _ => MoreKindsSpell(s);
  }

  lemma MoreKindsSpell(s: string)
    ensures WordKind(s) in {LET, MATCH, NOT, OR, PUB, TEST, TRUE, TYPE, UNDERSCORE} ==> Keyword(WordKind(s)) == s
    ensures WordKind(s) in {AND, AS, ASSERT, ELSE, FALSE, FN, IF, IMPORT, LET, MATCH, NOT, OR, PUB, TEST, TRUE, TYPE, UNDERSCORE, IDENT}
  {
  }

  lemma KeywordIsWord(k: Kind)
    ensures Keyword(k) != "" ==> WordKind(Keyword(k)) == k
  {
  }

  /** A name is letters, digits and underscores, no digit first, as many as there are; it is the
      keyword that is spelled so, if there is one. */
  lemma WordByCharacter(src: Source, t: Token)
    requires t.start < t.end <= |src|
    ensures IsWord(src, t) <==>
      && (forall k :: t.start <= k < t.end ==> InWord(src[k])) && !('0' <= src[t.start] <= '9') && (t.end < |src| ==> !InWord(src[t.end]))
      && (t.kind == IDENT || Keyword(t.kind) == src[t.start..t.end])
      && (t.kind == IDENT ==> forall k :: Keyword(k) != src[t.start..t.end])
  {
    var text := src[t.start..t.end];
    assert forall k :: t.start <= k < t.end ==> src[k] == text[k - t.start];
    assert forall k :: 0 <= k < |text| ==> text[k] == src[t.start + k];
    WordOfKeyword(text);
    if Keyword(t.kind) == text { KeywordIsWord(t.kind); }
    if forall k :: t.start <= k < t.end ==> InWord(src[k]) {
      forall c | c in text ensures IdentCont(c) {
        var k :| 0 <= k < |text| && text[k] == c;
        assert InWord(src[t.start + k]);
      }
    }
    if forall c <- text :: IdentCont(c) {
      forall k | t.start <= k < t.end ensures InWord(src[k]) { assert text[k - t.start] in text; }
    }
  }

  // ---------- characters ----------

  /** A character stands between single quotes: its bytes, or an escape. */
  lemma {:induction false} CharOfBytes(src: Source, i: nat, j: nat)
    requires i + 2 <= j < |src| && src[i + 1] != '\\' && src[j] == '\'' && forall k :: i + 2 <= k < j ==> 0x80 <= src[k] as int < 0xC0
    ensures CharEnd(src, i) == (j + 1, true)
  {
    ContinuesTo(src, i + 2, j);
  }

  lemma {:induction false} ContinuesTo(src: Source, i: nat, j: nat)
    requires i <= j < |src| && src[j] == '\'' && forall k :: i <= k < j ==> 0x80 <= src[k] as int < 0xC0
    ensures ContinuesEnd(src, i) == j
    decreases j - i
  {
    if i < j {
      assert src[i] != '\'';
      ContinuesTo(src, i + 1, j);
    }
  }

  lemma CharEscaped(src: Source, i: nat)
    requires i + 3 < |src| && src[i + 1] == '\\' && !(src[i + 2] == 'u' && src[i + 3] == '{') && src[i + 3] == '\''
    ensures CharEnd(src, i) == (i + 4, true)
  {
  }

  lemma {:induction false} CharOfCode(src: Source, i: nat, j: nat)
    requires i + 4 <= j && j + 1 < |src| && src[i + 1] == '\\' && src[i + 2] == 'u' && src[i + 3] == '{'
    requires src[j] == '}' && src[j + 1] == '\'' && forall k :: i + 4 <= k < j ==> src[k] != '}'
    ensures CharEnd(src, i) == (j + 2, true)
  {
    BraceAt(src, i + 4, j);
  }

  lemma {:induction false} BraceAt(src: Source, i: nat, j: nat)
    requires i <= j < |src| && src[j] == '}' && forall k :: i <= k < j ==> src[k] != '}'
    ensures BraceEnd(src, i) == j + 1
    decreases j - i
  {
    if i < j { BraceAt(src, i + 1, j); }
  }
}
