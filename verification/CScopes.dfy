/** Whether the emitted C means the declaration that the compiler means by a name. A C variable is
    in scope in its own initialiser; a `let` is not. */
module CScopes {
  import opened Stage0
  import opened TailCalls
  import opened UseCount

  /** A C variable is in scope in its own initialiser. Which declaration each identifier of `e`
      is in the emitted code, from left to right. */
  function InC(e: Expr, scope: seq<Decl>): seq<Id>
    decreases e
  {
    match e
    case Lit(_) => []
    case Var(x) => [Found(x, scope)]
    case Prim(_, args) => ArgsInC(args, scope)
    case Call(f, args, _) => [Found(f, scope)] + ArgsInC(args, scope)
    case If(c, t, u) => InC(c, scope) + InC(t, scope) + InC(u, scope)
    case Match(s, arms) => InC(s, scope) + ArmsInC(arms, scope)
    case Let(p, r, b) => InC(r, if p.Bind? then scope + [p.decl] else scope) + InC(b, scope + PatDecls(p))
    case Then(a, b) => InC(a, scope) + InC(b, scope)
    case Lambda(ps, b) => InC(b, scope + Shadowed(ps))
    case Block(b) => InC(b, scope)
  }

  function ArgsInC(es: Args, scope: seq<Decl>): seq<Id>
    decreases es
  {
    if es.NoArgs? then [] else InC(es.head, scope) + ArgsInC(es.rest, scope)
  }

  function ArmsInC(arms: Arms, scope: seq<Decl>): seq<Id>
    decreases arms
  {
    if arms.NoArms? then [] else
      (if arms.guard.NoGuard? then [] else InC(arms.guard.cond, scope + PatDecls(arms.pat)))
      + InC(arms.body, scope + PatDecls(arms.pat)) + ArmsInC(arms.rest, scope)
  }

  /** The same under the scopes of the language, which counting and emission follow. */
  function Lexical(e: Expr, scope: seq<Decl>): seq<Id>
    decreases e
  {
    match e
    case Lit(_) => []
    case Var(x) => [Found(x, scope)]
    case Prim(_, args) => ArgsLexical(args, scope)
    case Call(f, args, _) => [Found(f, scope)] + ArgsLexical(args, scope)
    case If(c, t, u) => Lexical(c, scope) + Lexical(t, scope) + Lexical(u, scope)
    case Match(s, arms) => Lexical(s, scope) + ArmsLexical(arms, scope)
    case Let(p, r, b) => Lexical(r, scope) + Lexical(b, scope + PatDecls(p))
    case Then(a, b) => Lexical(a, scope) + Lexical(b, scope)
    case Lambda(ps, b) => Lexical(b, scope + Shadowed(ps))
    case Block(b) => Lexical(b, scope)
  }

  function ArgsLexical(es: Args, scope: seq<Decl>): seq<Id>
    decreases es
  {
    if es.NoArgs? then [] else Lexical(es.head, scope) + ArgsLexical(es.rest, scope)
  }

  function ArmsLexical(arms: Arms, scope: seq<Decl>): seq<Id>
    decreases arms
  {
    if arms.NoArms? then [] else
      (if arms.guard.NoGuard? then [] else Lexical(arms.guard.cond, scope + PatDecls(arms.pat)))
      + Lexical(arms.body, scope + PatDecls(arms.pat)) + ArmsLexical(arms.rest, scope)
  }

  function Found(x: Name, scope: seq<Decl>): Id {
    var k := Innermost(scope, x);
    if k < 0 then NoId else scope[k].id
  }

  /** `x` is read in `e` and not bound there. */
  predicate Free(x: Name, e: Expr)
    decreases e
  {
    match e
    case Lit(_) => false
    case Var(y) => x == y
    case Prim(_, args) => FreeArgs(x, args)
    case Call(f, args, _) => x == f || FreeArgs(x, args)
    case If(c, t, u) => Free(x, c) || Free(x, t) || Free(x, u)
    case Match(s, arms) => Free(x, s) || FreeArms(x, arms)
    case Let(p, r, b) => Free(x, r) || (x !in Names(PatDecls(p)) && Free(x, b))
    case Then(a, b) => Free(x, a) || Free(x, b)
    case Lambda(ps, b) => x !in ps && Free(x, b)
    case Block(b) => Free(x, b)
  }

  predicate FreeArgs(x: Name, es: Args)
    decreases es
  {
    es.Arg? && (Free(x, es.head) || FreeArgs(x, es.rest))
  }

  predicate FreeArms(x: Name, arms: Arms)
    decreases arms
  {
    arms.Arm? && ((x !in Names(PatDecls(arms.pat)) && ((arms.guard.When? && Free(x, arms.guard.cond)) || Free(x, arms.body))) || FreeArms(x, arms.rest))
  }

  /** No `let x = r` has an r that reads an outer x. */
  predicate NoSelfRead(e: Expr)
    decreases e
  {
    match e
    case Prim(_, args) => NoSelfReadArgs(args)
    case Call(_, args, _) => NoSelfReadArgs(args)
    case If(c, t, u) => NoSelfRead(c) && NoSelfRead(t) && NoSelfRead(u)
    case Match(s, arms) => NoSelfRead(s) && NoSelfReadArms(arms)
    case Let(p, r, b) => NoSelfRead(r) && NoSelfRead(b) && !(p.Bind? && Free(p.decl.name, r))
    case Then(a, b) => NoSelfRead(a) && NoSelfRead(b)
    case Lambda(_, b) => NoSelfRead(b)
    case Block(b) => NoSelfRead(b)
    case _ => true
  }

  predicate NoSelfReadArgs(es: Args)
    decreases es
  {
    es.Arg? ==> NoSelfRead(es.head) && NoSelfReadArgs(es.rest)
  }

  predicate NoSelfReadArms(arms: Arms)
    decreases arms
  {
    arms.Arm? ==> (arms.guard.When? ==> NoSelfRead(arms.guard.cond)) && NoSelfRead(arms.body) && NoSelfReadArms(arms.rest)
  }

  // ---------- where they agree ----------


  lemma {:induction false} InnermostAppend(a: seq<Decl>, b: seq<Decl>, x: Name)
    ensures Innermost(a + b, x) == if Innermost(b, x) >= 0 then |a| + Innermost(b, x) else Innermost(a, x)
  {
    if b == [] {
      assert a + b == a;
    } else {
      assert (a + b)[..|a + b| - 1] == a + b[..|b| - 1];
      InnermostAppend(a, b[..|b| - 1], x);
    }
  }

  lemma FoundWithout(y: Name, outer: seq<Decl>, d: Decl, inner: seq<Decl>)
    requires y != d.name || d.name in Names(inner)
    ensures Found(y, outer + [d] + inner) == Found(y, outer + inner)
  {
    InnermostAppend(outer + [d], inner, y);
    InnermostAppend(outer, inner, y);
    InnermostAppend(outer, [d], y);
    if y == d.name { NameFound(y, inner); }
    assert Innermost([d], y) == if y == d.name then 0 else -1;
  }

  lemma NameFound(x: Name, ds: seq<Decl>)
    requires x in Names(ds)
    ensures Innermost(ds, x) >= 0
  {
    var k :| 0 <= k < |ds| && Names(ds)[k] == x;
    assert ds[k].name == x;
  }

  /** A variable that is not read can be left out of the scope. */
  lemma {:induction false} WithoutUnread(e: Expr, outer: seq<Decl>, d: Decl, inner: seq<Decl>)
    requires d.name in Names(inner) || !Free(d.name, e)
    ensures InC(e, outer + [d] + inner) == InC(e, outer + inner)
    decreases e, 0
  {
    var s, s' := outer + [d] + inner, outer + inner;
    match e
    case Lit(_) =>
    case Var(x) => FoundWithout(x, outer, d, inner);
    case Prim(_, args) => WithoutUnreadArgs(args, outer, d, inner);
    case Call(f, args, _) => FoundWithout(f, outer, d, inner); WithoutUnreadArgs(args, outer, d, inner);
    case If(c, t, u) => WithoutUnread(c, outer, d, inner); WithoutUnread(t, outer, d, inner); WithoutUnread(u, outer, d, inner);
    case Match(m, arms) => WithoutUnread(m, outer, d, inner); WithoutUnreadArms(arms, outer, d, inner);
    case Let(p, r, b) =>
      if p.Bind? { Deeper(r, outer, d, inner, [p.decl]); } else { WithoutUnread(r, outer, d, inner); }
      Deeper(b, outer, d, inner, PatDecls(p));
    case Then(a, b) => WithoutUnread(a, outer, d, inner); WithoutUnread(b, outer, d, inner);
    case Lambda(ps, b) =>
      assert Names(Shadowed(ps)) == ps;
      Deeper(b, outer, d, inner, Shadowed(ps));
    case Block(b) => WithoutUnread(b, outer, d, inner);
  }

  /** The same under more binders. */
  lemma Deeper(e: Expr, outer: seq<Decl>, d: Decl, inner: seq<Decl>, more: seq<Decl>)
    requires d.name in Names(inner) || d.name in Names(more) || !Free(d.name, e)
    ensures InC(e, outer + [d] + inner + more) == InC(e, outer + inner + more)
    decreases e, 1
  {
    assert Names(inner + more) == Names(inner) + Names(more);
    assert outer + [d] + inner + more == outer + [d] + (inner + more) && outer + inner + more == outer + (inner + more);
    WithoutUnread(e, outer, d, inner + more);
  }

  lemma {:induction false} WithoutUnreadArgs(es: Args, outer: seq<Decl>, d: Decl, inner: seq<Decl>)
    requires d.name in Names(inner) || !FreeArgs(d.name, es)
    ensures ArgsInC(es, outer + [d] + inner) == ArgsInC(es, outer + inner)
    decreases es, 0
  {
    if es.Arg? { WithoutUnread(es.head, outer, d, inner); WithoutUnreadArgs(es.rest, outer, d, inner); }
  }

  lemma {:induction false} WithoutUnreadArms(arms: Arms, outer: seq<Decl>, d: Decl, inner: seq<Decl>)
    requires d.name in Names(inner) || !FreeArms(d.name, arms)
    ensures ArmsInC(arms, outer + [d] + inner) == ArmsInC(arms, outer + inner)
    decreases arms, 0
  {
    if arms.Arm? {
      if arms.guard.When? { Deeper(arms.guard.cond, outer, d, inner, PatDecls(arms.pat)); }
      Deeper(arms.body, outer, d, inner, PatDecls(arms.pat));
      WithoutUnreadArms(arms.rest, outer, d, inner);
    }
  }

  lemma {:induction false} SameWithoutSelfReads(e: Expr, scope: seq<Decl>)
    requires NoSelfRead(e)
    ensures InC(e, scope) == Lexical(e, scope)
    decreases e
  {
    match e
    case Prim(_, args) => SameWithoutSelfReadsArgs(args, scope);
    case Call(_, args, _) => SameWithoutSelfReadsArgs(args, scope);
    case If(c, t, u) => SameWithoutSelfReads(c, scope); SameWithoutSelfReads(t, scope); SameWithoutSelfReads(u, scope);
    case Match(m, arms) => SameWithoutSelfReads(m, scope); SameWithoutSelfReadsArms(arms, scope);
    case Let(p, r, b) =>
      SameWithoutSelfReads(r, scope);
      SameWithoutSelfReads(b, scope + PatDecls(p));
      if p.Bind? {
        WithoutUnread(r, scope, p.decl, []);
        assert scope + [p.decl] + [] == scope + [p.decl] && scope + [] == scope;
      }
    case Then(a, b) => SameWithoutSelfReads(a, scope); SameWithoutSelfReads(b, scope);
    case Lambda(ps, b) => SameWithoutSelfReads(b, scope + Shadowed(ps));
    case Block(b) => SameWithoutSelfReads(b, scope);
    case _ =>
  }

  lemma {:induction false} SameWithoutSelfReadsArgs(es: Args, scope: seq<Decl>)
    requires NoSelfReadArgs(es)
    ensures ArgsInC(es, scope) == ArgsLexical(es, scope)
    decreases es
  {
    if es.Arg? { SameWithoutSelfReads(es.head, scope); SameWithoutSelfReadsArgs(es.rest, scope); }
  }

  lemma {:induction false} SameWithoutSelfReadsArms(arms: Arms, scope: seq<Decl>)
    requires NoSelfReadArms(arms)
    ensures ArmsInC(arms, scope) == ArmsLexical(arms, scope)
    decreases arms
  {
    if arms.Arm? {
      if arms.guard.When? { SameWithoutSelfReads(arms.guard.cond, scope + PatDecls(arms.pat)); }
      SameWithoutSelfReads(arms.body, scope + PatDecls(arms.pat));
      SameWithoutSelfReadsArms(arms.rest, scope);
    }
  }

  // ---------- where they do not ----------

  /** The number of identifiers in `e`. */
  function Idents(e: Expr): nat
    decreases e
  {
    match e
    case Lit(_) => 0
    case Var(_) => 1
    case Prim(_, args) => ArgsIdents(args)
    case Call(_, args, _) => 1 + ArgsIdents(args)
    case If(c, t, u) => Idents(c) + Idents(t) + Idents(u)
    case Match(m, arms) => Idents(m) + ArmsIdents(arms)
    case Let(_, r, b) => Idents(r) + Idents(b)
    case Then(a, b) => Idents(a) + Idents(b)
    case Lambda(_, b) => Idents(b)
    case Block(b) => Idents(b)
  }

  function ArgsIdents(es: Args): nat
    decreases es
  {
    if es.NoArgs? then 0 else Idents(es.head) + ArgsIdents(es.rest)
  }

  function ArmsIdents(arms: Arms): nat
    decreases arms
  {
    if arms.NoArms? then 0 else (if arms.guard.NoGuard? then 0 else Idents(arms.guard.cond)) + Idents(arms.body) + ArmsIdents(arms.rest)
  }

  lemma {:induction false} Lengths(e: Expr, s: seq<Decl>)
    ensures |InC(e, s)| == |Lexical(e, s)| == Idents(e)
    decreases e
  {
    match e
    case Prim(_, args) => LengthsArgs(args, s);
    case Call(_, args, _) => LengthsArgs(args, s);
    case If(c, t, u) => Lengths(c, s); Lengths(t, s); Lengths(u, s);
    case Match(m, arms) => Lengths(m, s); LengthsArms(arms, s);
    case Let(p, r, b) =>
      Lengths(r, s);
      if p.Bind? { Lengths(r, s + [p.decl]); }
      Lengths(b, s + PatDecls(p));
    case Then(a, b) => Lengths(a, s); Lengths(b, s);
    case Lambda(ps, b) => Lengths(b, s + Shadowed(ps));
    case Block(b) => Lengths(b, s);
    case _ =>
  }

  lemma {:induction false} LengthsArgs(es: Args, s: seq<Decl>)
    ensures |ArgsInC(es, s)| == |ArgsLexical(es, s)| == ArgsIdents(es)
    decreases es
  {
    if es.Arg? { Lengths(es.head, s); LengthsArgs(es.rest, s); }
  }

  lemma {:induction false} LengthsArms(arms: Arms, s: seq<Decl>)
    ensures |ArmsInC(arms, s)| == |ArmsLexical(arms, s)| == ArmsIdents(arms)
    decreases arms
  {
    if arms.Arm? {
      if arms.guard.When? { Lengths(arms.guard.cond, s + PatDecls(arms.pat)); }
      Lengths(arms.body, s + PatDecls(arms.pat));
      LengthsArms(arms.rest, s);
    }
  }

  lemma Differ<T>(a: seq<T>, b: seq<T>, a': seq<T>, b': seq<T>)
    requires |a| == |a'| && |b| == |b'| && (a != a' || b != b')
    ensures a + b != a' + b'
  {
    assert a == (a + b)[..|a|] && b == (a + b)[|a|..];
    assert a' == (a' + b')[..|a|] && b' == (a' + b')[|a|..];
  }

  /** An identifier that means the extra variable. */
  lemma {:induction false} ReadsInner(e: Expr, outer: seq<Decl>, d: Decl, inner: seq<Decl>)
    requires Free(d.name, e) && NoSelfRead(e) && d.name !in Names(inner)
    ensures d.id in InC(e, outer + [d] + inner)
    decreases e, 0
  {
    match e
    case Var(x) => FoundInner(outer, d, inner);
    case Prim(_, args) => ReadsInnerArgs(args, outer, d, inner);
    case Call(f, args, _) =>
      if f == d.name { FoundInner(outer, d, inner); } else { ReadsInnerArgs(args, outer, d, inner); }
    case If(c, t, u) =>
      if Free(d.name, c) { ReadsInner(c, outer, d, inner); }
      if Free(d.name, t) { ReadsInner(t, outer, d, inner); }
      if Free(d.name, u) { ReadsInner(u, outer, d, inner); }
    case Match(m, arms) =>
      if Free(d.name, m) { ReadsInner(m, outer, d, inner); } else { ReadsInnerArms(arms, outer, d, inner); }
    case Let(p, r, b) =>
      if Free(d.name, r) {
        if p.Bind? { ReadsDeeper(r, outer, d, inner, [p.decl]); } else { ReadsInner(r, outer, d, inner); }
      } else {
        ReadsDeeper(b, outer, d, inner, PatDecls(p));
      }
    case Then(a, b) =>
      if Free(d.name, a) { ReadsInner(a, outer, d, inner); } else { ReadsInner(b, outer, d, inner); }
    case Lambda(ps, b) =>
      assert Names(Shadowed(ps)) == ps;
      ReadsDeeper(b, outer, d, inner, Shadowed(ps));
    case Block(b) => ReadsInner(b, outer, d, inner);
    case _ =>
  }

  lemma FoundInner(outer: seq<Decl>, d: Decl, inner: seq<Decl>)
    requires d.name !in Names(inner)
    ensures Found(d.name, outer + [d] + inner) == d.id
  {
    InnermostAppend(outer + [d], inner, d.name);
    InnermostAppend(outer, [d], d.name);
    assert forall k :: 0 <= k < |inner| ==> Names(inner)[k] in Names(inner);
    assert Innermost([d], d.name) == 0;
  }

  lemma ReadsDeeper(e: Expr, outer: seq<Decl>, d: Decl, inner: seq<Decl>, more: seq<Decl>)
    requires Free(d.name, e) && NoSelfRead(e) && d.name !in Names(inner) && d.name !in Names(more)
    ensures d.id in InC(e, outer + [d] + inner + more)
    decreases e, 1
  {
    assert Names(inner + more) == Names(inner) + Names(more);
    assert outer + [d] + inner + more == outer + [d] + (inner + more);
    ReadsInner(e, outer, d, inner + more);
  }

  lemma {:induction false} ReadsInnerArgs(es: Args, outer: seq<Decl>, d: Decl, inner: seq<Decl>)
    requires FreeArgs(d.name, es) && NoSelfReadArgs(es) && d.name !in Names(inner)
    ensures d.id in ArgsInC(es, outer + [d] + inner)
    decreases es, 0
  {
    if Free(d.name, es.head) { ReadsInner(es.head, outer, d, inner); } else { ReadsInnerArgs(es.rest, outer, d, inner); }
  }

  lemma {:induction false} ReadsInnerArms(arms: Arms, outer: seq<Decl>, d: Decl, inner: seq<Decl>)
    requires FreeArms(d.name, arms) && NoSelfReadArms(arms) && d.name !in Names(inner)
    ensures d.id in ArmsInC(arms, outer + [d] + inner)
    decreases arms, 0
  {
    if FreeArms(d.name, arms.rest) {
      ReadsInnerArms(arms.rest, outer, d, inner);
    } else if Free(d.name, arms.body) {
      ReadsDeeper(arms.body, outer, d, inner, PatDecls(arms.pat));
    } else {
      ReadsDeeper(arms.guard.cond, outer, d, inner, PatDecls(arms.pat));
    }
  }

  /** A declaration that is not in scope is never meant. */
  lemma {:induction false} NeverMeant(id: Id, e: Expr, s: seq<Decl>)
    requires id !in Ids(s) && id !in Binders(e) && id != NoId
    ensures id !in Lexical(e, s)
    decreases e
  {
    match e
    case Prim(_, args) => NeverMeantArgs(id, args, s);
    case Call(_, args, _) => NeverMeantArgs(id, args, s);
    case If(c, t, u) => NeverMeant(id, c, s); NeverMeant(id, t, s); NeverMeant(id, u, s);
    case Match(m, arms) => NeverMeant(id, m, s); NeverMeantArms(id, arms, s);
    case Let(p, r, b) => NeverMeant(id, r, s); IdsAppend(s, PatDecls(p)); NeverMeant(id, b, s + PatDecls(p));
    case Then(a, b) => NeverMeant(id, a, s); NeverMeant(id, b, s);
    case Lambda(ps, b) => IdsAppend(s, Shadowed(ps)); NeverMeant(id, b, s + Shadowed(ps));
    case Block(b) => NeverMeant(id, b, s);
    case _ =>
  }

  lemma {:induction false} NeverMeantArgs(id: Id, es: Args, s: seq<Decl>)
    requires id !in Ids(s) && id !in ArgsBinders(es) && id != NoId
    ensures id !in ArgsLexical(es, s)
    decreases es
  {
    if es.Arg? { NeverMeant(id, es.head, s); NeverMeantArgs(id, es.rest, s); }
  }

  lemma {:induction false} NeverMeantArms(id: Id, arms: Arms, s: seq<Decl>)
    requires id !in Ids(s) && id !in ArmsBinders(arms) && id != NoId
    ensures id !in ArmsLexical(arms, s)
    decreases arms
  {
    if arms.Arm? {
      IdsAppend(s, PatDecls(arms.pat));
      if arms.guard.When? { NeverMeant(id, arms.guard.cond, s + PatDecls(arms.pat)); }
      NeverMeant(id, arms.body, s + PatDecls(arms.pat));
      NeverMeantArms(id, arms.rest, s);
    }
  }

  /** The declarations of `e` are new. */
  predicate New(binders: set<Id>, s: seq<Decl>) {
    binders !! Ids(s) && NoId !in binders
  }

  lemma {:induction false} SelfReadsDiffer(e: Expr, s1: seq<Decl>, s2: seq<Decl>)
    requires !NoSelfRead(e) && Apart(e) && New(Binders(e), s2)
    ensures InC(e, s1) != Lexical(e, s2)
    decreases e, 1
  {
    match e
    case Prim(_, args) => SelfReadsDifferArgs(args, s1, s2);
    case Call(f, args, _) =>
      SelfReadsDifferArgs(args, s1, s2);
      LengthsArgs(args, s1);
      LengthsArgs(args, s2);
      Differ([Found(f, s1)], ArgsInC(args, s1), [Found(f, s2)], ArgsLexical(args, s2));
    case If(c, t, u) => SelfReadsDifferIf(e, s1, s2);
    case Match(m, arms) =>
      if !NoSelfRead(m) { SelfReadsDiffer(m, s1, s2); } else { SelfReadsDifferArms(arms, s1, s2); }
      Lengths(m, s1); Lengths(m, s2); LengthsArms(arms, s1); LengthsArms(arms, s2);
      Differ(InC(m, s1), ArmsInC(arms, s1), Lexical(m, s2), ArmsLexical(arms, s2));
    case Let(p, r, b) => SelfReadsDifferLet(e, s1, s2);
    case Then(a, b) =>
      if !NoSelfRead(a) { SelfReadsDiffer(a, s1, s2); } else { SelfReadsDiffer(b, s1, s2); }
      Lengths(a, s1); Lengths(a, s2); Lengths(b, s1); Lengths(b, s2);
      Differ(InC(a, s1), InC(b, s1), Lexical(a, s2), Lexical(b, s2));
    case Lambda(ps, b) =>
      IdsAppend(s2, Shadowed(ps));
      SelfReadsDiffer(b, s1 + Shadowed(ps), s2 + Shadowed(ps));
    case Block(b) => SelfReadsDiffer(b, s1, s2);
    case _ =>
  }

  lemma SelfReadsDifferIf(e: Expr, s1: seq<Decl>, s2: seq<Decl>)
    requires e.If? && !NoSelfRead(e) && Apart(e) && New(Binders(e), s2)
    ensures InC(e, s1) != Lexical(e, s2)
    decreases e, 0
  {
    var If(c, t, u) := e;
    if !NoSelfRead(c) { SelfReadsDiffer(c, s1, s2); } else if !NoSelfRead(t) { SelfReadsDiffer(t, s1, s2); } else { SelfReadsDiffer(u, s1, s2); }
    Lengths(c, s1); Lengths(c, s2); Lengths(t, s1); Lengths(t, s2); Lengths(u, s1); Lengths(u, s2);
    if InC(c, s1) + InC(t, s1) == Lexical(c, s2) + Lexical(t, s2) {
      if InC(c, s1) != Lexical(c, s2) || InC(t, s1) != Lexical(t, s2) { Differ(InC(c, s1), InC(t, s1), Lexical(c, s2), Lexical(t, s2)); }
    }
    Differ(InC(c, s1) + InC(t, s1), InC(u, s1), Lexical(c, s2) + Lexical(t, s2), Lexical(u, s2));
  }

  lemma SelfReadsDifferLet(e: Expr, s1: seq<Decl>, s2: seq<Decl>)
    requires e.Let? && !NoSelfRead(e) && Apart(e) && New(Binders(e), s2)
    ensures InC(e, s1) != Lexical(e, s2)
    decreases e, 0
  {
    var Let(p, r, b) := e;
    var sr := if p.Bind? then s1 + [p.decl] else s1;
    if !NoSelfRead(r) {
      SelfReadsDiffer(r, sr, s2);
    } else if p.Bind? && Free(p.decl.name, r) {
      ReadsInner(r, s1, p.decl, []);
      assert s1 + [p.decl] + [] == sr;
      assert p.decl.id in Ids(PatDecls(p)) by { assert PatDecls(p)[0] == p.decl; }
      NeverMeant(p.decl.id, r, s2);
    } else {
      IdsAppend(s2, PatDecls(p));
      SelfReadsDiffer(b, s1 + PatDecls(p), s2 + PatDecls(p));
    }
    Lengths(r, sr); Lengths(r, s2); Lengths(b, s1 + PatDecls(p)); Lengths(b, s2 + PatDecls(p));
    Differ(InC(r, sr), InC(b, s1 + PatDecls(p)), Lexical(r, s2), Lexical(b, s2 + PatDecls(p)));
  }

  lemma {:induction false} SelfReadsDifferArgs(es: Args, s1: seq<Decl>, s2: seq<Decl>)
    requires !NoSelfReadArgs(es) && ApartArgs(es) && New(ArgsBinders(es), s2)
    ensures ArgsInC(es, s1) != ArgsLexical(es, s2)
    decreases es, 1
  {
    if !NoSelfRead(es.head) { SelfReadsDiffer(es.head, s1, s2); } else { SelfReadsDifferArgs(es.rest, s1, s2); }
    Lengths(es.head, s1); Lengths(es.head, s2); LengthsArgs(es.rest, s1); LengthsArgs(es.rest, s2);
    Differ(InC(es.head, s1), ArgsInC(es.rest, s1), Lexical(es.head, s2), ArgsLexical(es.rest, s2));
  }

  lemma {:induction false} SelfReadsDifferArms(arms: Arms, s1: seq<Decl>, s2: seq<Decl>)
    requires !NoSelfReadArms(arms) && ApartArms(arms) && New(ArmsBinders(arms), s2)
    ensures ArmsInC(arms, s1) != ArmsLexical(arms, s2)
    decreases arms, 1
  {
    var i1, i2 := s1 + PatDecls(arms.pat), s2 + PatDecls(arms.pat);
    var g := arms.guard;
    var g1, g2 := if g.NoGuard? then [] else InC(g.cond, i1), if g.NoGuard? then [] else Lexical(g.cond, i2);
    IdsAppend(s2, PatDecls(arms.pat));
    if g.When? { Lengths(g.cond, i1); Lengths(g.cond, i2); }
    Lengths(arms.body, i1); Lengths(arms.body, i2); LengthsArms(arms.rest, s1); LengthsArms(arms.rest, s2);
    if g.When? && !NoSelfRead(g.cond) {
      SelfReadsDiffer(g.cond, i1, i2);
    } else if !NoSelfRead(arms.body) {
      SelfReadsDiffer(arms.body, i1, i2);
    } else {
      SelfReadsDifferArms(arms.rest, s1, s2);
    }
    if g1 != g2 || InC(arms.body, i1) != Lexical(arms.body, i2) { Differ(g1, InC(arms.body, i1), g2, Lexical(arms.body, i2)); }
    Differ(g1 + InC(arms.body, i1), ArmsInC(arms.rest, s1), g2 + Lexical(arms.body, i2), ArmsLexical(arms.rest, s2));
  }

  /** Each identifier of the emitted code means the declaration that counting and emission
      resolved it to, exactly when no `let` reads an outer variable of the name it binds; and it is C
      besides exactly when no block declares anything twice. */
  lemma SameScopes(e: Expr, scope: seq<Decl>)
    requires Apart(e) && New(Binders(e), scope)
    ensures InC(e, scope) == Lexical(e, scope) <==> NoSelfRead(e)
    ensures IsC(e) && InC(e, scope) == Lexical(e, scope) <==> DeclaredOnce(e) && NoSelfRead(e)
  {
    if NoSelfRead(e) { SameWithoutSelfReads(e, scope); } else { SelfReadsDiffer(e, scope, scope); }
    DeclarationsAreC(e);
  }

  // ---------- what C can declare ----------

  /** The variables that the emitted code declares: one for a name, and a temporary for a `let` that
      takes a value apart. */
  datatype CVar = Kai(name: Name) | LetTemp

  function KaiVars(xs: seq<Name>): (cs: seq<CVar>)
    ensures |cs| == |xs| && forall i :: 0 <= i < |xs| ==> cs[i] == Kai(xs[i])
  {
    seq(|xs|, i requires 0 <= i < |xs| => Kai(xs[i]))
  }

  function LetVars(p: Pat): seq<CVar> {
    if p.Bind? then [Kai(p.decl.name)] else [LetTemp] + KaiVars(Names(PatDecls(p)))
  }

  /** What is declared in the C scope of a block, from `e` on. An inner block is a scope of its own. */
  function ScopeVars(e: Expr): seq<CVar>
    decreases e
  {
    match e
    case Let(p, _, b) => LetVars(p) + ScopeVars(b)
    case Then(_, b) => ScopeVars(b)
    case _ => []
  }

  predicate Distinct<T(==)>(xs: seq<T>) {
    forall i, j :: 0 <= i < j < |xs| ==> xs[i] != xs[j]
  }

  /** No C scope declares a variable twice. */
  predicate IsC(e: Expr)
    decreases e
  {
    match e
    case Prim(_, args) => ArgsAreC(args)
    case Call(_, args, _) => ArgsAreC(args)
    case If(c, t, u) => IsC(c) && IsC(t) && IsC(u)
    case Match(s, arms) => IsC(s) && ArmsAreC(arms)
    case Let(_, r, b) => Distinct(ScopeVars(e)) && IsC(r) && IsC(b)
    case Then(a, b) => IsC(a) && IsC(b)
    case Lambda(ps, b) => Distinct(KaiVars(ps)) && IsC(b)
    case Block(b) => IsC(b)
    case _ => true
  }

  predicate ArgsAreC(es: Args)
    decreases es
  {
    es.Arg? ==> IsC(es.head) && ArgsAreC(es.rest)
  }

  predicate ArmsAreC(arms: Arms)
    decreases arms
  {
    arms.Arm? ==>
      && Distinct(KaiVars(Names(PatDecls(arms.pat))))
      && (arms.guard.When? ==> IsC(arms.guard.cond)) && IsC(arms.body) && ArmsAreC(arms.rest)
  }

  /** The names that a block declares, not those of its inner blocks. */
  function BlockNames(e: Expr): seq<Name>
    decreases e
  {
    match e
    case Let(p, _, b) => Names(PatDecls(p)) + BlockNames(b)
    case Then(_, b) => BlockNames(b)
    case _ => []
  }

  /** The `let`s of a block whose pattern is not just a name. A wildcard is such a pattern. */
  function Unpacking(e: Expr): nat
    decreases e
  {
    match e
    case Let(p, _, b) => (if p.Bind? then 0 else 1) + Unpacking(b)
    case Then(_, b) => Unpacking(b)
    case _ => 0
  }

  /** No block declares a name twice or has two `let`s that take a value apart; and no pattern and
      no parameter list has a name twice. */
  predicate DeclaredOnce(e: Expr)
    decreases e
  {
    match e
    case Prim(_, args) => ArgsDeclaredOnce(args)
    case Call(_, args, _) => ArgsDeclaredOnce(args)
    case If(c, t, u) => DeclaredOnce(c) && DeclaredOnce(t) && DeclaredOnce(u)
    case Match(s, arms) => DeclaredOnce(s) && ArmsDeclaredOnce(arms)
    case Let(_, r, b) => Distinct(BlockNames(e)) && Unpacking(e) <= 1 && DeclaredOnce(r) && DeclaredOnce(b)
    case Then(a, b) => DeclaredOnce(a) && DeclaredOnce(b)
    case Lambda(ps, b) => Distinct(ps) && DeclaredOnce(b)
    case Block(b) => DeclaredOnce(b)
    case _ => true
  }

  predicate ArgsDeclaredOnce(es: Args)
    decreases es
  {
    es.Arg? ==> DeclaredOnce(es.head) && ArgsDeclaredOnce(es.rest)
  }

  predicate ArmsDeclaredOnce(arms: Arms)
    decreases arms
  {
    arms.Arm? ==>
      && Distinct(Names(PatDecls(arms.pat)))
      && (arms.guard.When? ==> DeclaredOnce(arms.guard.cond)) && DeclaredOnce(arms.body) && ArmsDeclaredOnce(arms.rest)
  }

  lemma DistinctBoth<T>(a: seq<T>, b: seq<T>)
    ensures Distinct(a + b) <==> Distinct(a) && Distinct(b) && forall x <- a :: x !in b
  {
    var c := a + b;
    if Distinct(c) {
      forall i, j | 0 <= i < j < |b| ensures b[i] != b[j] { assert c[|a| + i] == b[i] && c[|a| + j] == b[j]; }
      forall i, j | 0 <= i < j < |a| ensures a[i] != a[j] { assert c[i] == a[i] && c[j] == a[j]; }
      forall x | x in a ensures x !in b {
        var i :| 0 <= i < |a| && a[i] == x;
        forall j | 0 <= j < |b| ensures b[j] != x { assert c[i] == x && c[|a| + j] == b[j]; }
      }
    }
    if Distinct(a) && Distinct(b) && forall x <- a :: x !in b {
      forall i, j | 0 <= i < j < |c| ensures c[i] != c[j] {
        if i < |a| <= j { assert a[i] in a && b[j - |a|] in b; }
      }
    }
  }

  lemma KaiDistinct(xs: seq<Name>)
    ensures Distinct(KaiVars(xs)) <==> Distinct(xs)
  {
    if Distinct(KaiVars(xs)) {
      forall i, j | 0 <= i < j < |xs| ensures xs[i] != xs[j] { assert KaiVars(xs)[i] != KaiVars(xs)[j]; }
    }
  }

  lemma KaiIn(xs: seq<Name>, x: Name)
    ensures Kai(x) in KaiVars(xs) <==> x in xs
    ensures LetTemp !in KaiVars(xs)
  {
    if x in xs {
      var i :| 0 <= i < |xs| && xs[i] == x;
      assert KaiVars(xs)[i] == Kai(x);
    }
  }

  lemma {:induction false} ScopeHas(e: Expr)
    ensures forall x: Name :: Kai(x) in ScopeVars(e) <==> x in BlockNames(e)
    ensures LetTemp in ScopeVars(e) <==> Unpacking(e) > 0
    decreases e
  {
    match e
    case Let(p, _, b) =>
      ScopeHas(b);
      forall x: Name ensures Kai(x) in LetVars(p) <==> x in Names(PatDecls(p)) { LetHas(p, x); }
      LetHas(p, "");
    case Then(_, b) => ScopeHas(b);
    case _ =>
  }

  lemma LetHas(p: Pat, x: Name)
    ensures Kai(x) in LetVars(p) <==> x in Names(PatDecls(p))
    ensures LetTemp in LetVars(p) <==> !p.Bind?
  {
    KaiIn(Names(PatDecls(p)), x);
    if p.Bind? {
      assert PatDecls(p) == [p.decl] && Names([p.decl]) == [p.decl.name];
    } else {
      assert LetVars(p)[0] == LetTemp;
    }
  }

  lemma LetDistinct(p: Pat)
    ensures Distinct(LetVars(p)) <==> Distinct(Names(PatDecls(p)))
  {
    var xs := Names(PatDecls(p));
    KaiDistinct(xs);
    KaiIn(xs, "");
    DistinctBoth([LetTemp], KaiVars(xs));
    if p.Bind? { assert xs == [p.decl.name]; }
  }

  lemma {:induction false} OneScope(e: Expr)
    ensures Distinct(ScopeVars(e)) <==> Distinct(BlockNames(e)) && Unpacking(e) <= 1
    decreases e
  {
    match e
    case Let(p, _, b) =>
      var xs := Names(PatDecls(p));
      OneScope(b);
      ScopeHas(b);
      LetDistinct(p);
      DistinctBoth(LetVars(p), ScopeVars(b));
      DistinctBoth(xs, BlockNames(b));
      Apart2(p, b);
    case Then(_, b) => OneScope(b);
    case _ =>
  }

  /** The two parts of a scope share a variable iff they share a name or both have a temporary. */
  lemma Apart2(p: Pat, b: Expr)
    ensures (forall c <- LetVars(p) :: c !in ScopeVars(b))
      <==> (forall x <- Names(PatDecls(p)) :: x !in BlockNames(b)) && (!p.Bind? ==> Unpacking(b) == 0)
  {
    ScopeHas(b);
    LetHas(p, "");
    forall x: Name ensures Kai(x) in LetVars(p) <==> x in Names(PatDecls(p)) { LetHas(p, x); }
    if (forall x <- Names(PatDecls(p)) :: x !in BlockNames(b)) && (!p.Bind? ==> Unpacking(b) == 0) {
      forall c | c in LetVars(p) ensures c !in ScopeVars(b) {
        if c.Kai? { assert c == Kai(c.name); }
      }
    }
    if forall c <- LetVars(p) :: c !in ScopeVars(b) {
      forall x | x in Names(PatDecls(p)) ensures x !in BlockNames(b) { assert Kai(x) in LetVars(p); }
    }
  }

  /** The emitted declarations are C exactly when each block declares each name once and takes at most
      one value apart. */
  lemma {:induction false} DeclarationsAreC(e: Expr)
    ensures IsC(e) <==> DeclaredOnce(e)
    decreases e
  {
    match e
    case Prim(_, args) => ArgsDeclarations(args);
    case Call(_, args, _) => ArgsDeclarations(args);
    case If(c, t, u) => DeclarationsAreC(c); DeclarationsAreC(t); DeclarationsAreC(u);
    case Match(s, arms) => DeclarationsAreC(s); ArmsDeclarations(arms);
    case Let(_, r, b) => OneScope(e); DeclarationsAreC(r); DeclarationsAreC(b);
    case Then(a, b) => DeclarationsAreC(a); DeclarationsAreC(b);
    case Lambda(ps, b) => KaiDistinct(ps); DeclarationsAreC(b);
    case Block(b) => DeclarationsAreC(b);
    case _ =>
  }

  lemma {:induction false} ArgsDeclarations(es: Args)
    ensures ArgsAreC(es) <==> ArgsDeclaredOnce(es)
    decreases es
  {
    if es.Arg? { DeclarationsAreC(es.head); ArgsDeclarations(es.rest); }
  }

  lemma {:induction false} ArmsDeclarations(arms: Arms)
    ensures ArmsAreC(arms) <==> ArmsDeclaredOnce(arms)
    decreases arms
  {
    if arms.Arm? {
      KaiDistinct(Names(PatDecls(arms.pat)));
      if arms.guard.When? { DeclarationsAreC(arms.guard.cond); }
      DeclarationsAreC(arms.body);
      ArmsDeclarations(arms.rest);
    }
  }
}
