/** Stage 0's name checker. It rejects a program exactly when some identifier is not bound. */
module Checker {

  type Name = string

  datatype Pat =
    | Wild
    | Lit(i: int)
    | Bind(name: Name)
    | List(items: seq<Pat>)
    | Variant(con: Name, args: seq<Pat>)

  /** `Op` stands for every node whose children are just visited. */
  datatype Expr =
    | Num(i: int)
    | Ident(name: Name)
    | Op(op: Name, args: Exprs)
    | Call(callee: Expr, args: Exprs)
    | If(cond: Expr, yes: Expr, no: Expr)
    | Match(scrutinee: Expr, arms: Arms)
    | Block(items: Items)
    | Lambda(params: seq<Name>, body: Expr)

  datatype Exprs = Nil | Cons(head: Expr, tail: Exprs)

  /** The statements of a block; the last one is its value. */
  datatype Items = End | Let(pat: Pat, rhs: Expr, rest: Items) | Stmt(e: Expr, rest: Items)

  datatype Guard = NoGuard | When(cond: Expr)
  datatype Arms = NoArms | Arm(pat: Pat, guard: Guard, body: Expr, rest: Arms)

  datatype Decl =
    | Fn(name: Name, params: seq<Name>, body: Expr)
    | Test(body: Expr)
    | TypeDecl(name: Name, variants: seq<Name>)
    | Alias(name: Name)
    | Selection(names: seq<Name>)
    | Import(path: Name)

  // ---------- lexical scope ----------

  function Binders(p: Pat): seq<Name> {
    match p
    case Bind(x) => [x]
    case List(items) => AllBinders(items)
    case Variant(_, args) => AllBinders(args)
    case _ => []
  }

  function AllBinders(ps: seq<Pat>): seq<Name> {
    if ps == [] then [] else AllBinders(ps[..|ps| - 1]) + Binders(ps[|ps| - 1])
  }

  function Set(xs: seq<Name>): set<Name> {
    set x | x in xs
  }

  /** Every identifier in `e` is bound, given what is in scope around it. */
  predicate Scoped(e: Expr, scope: set<Name>)
    decreases e
  {
    match e
    case Num(_) => true
    case Ident(x) => x in scope
    case Op(_, args) => ScopedAll(args, scope)
    case Call(f, args) => Scoped(f, scope) && ScopedAll(args, scope)
    case If(c, t, u) => Scoped(c, scope) && Scoped(t, scope) && Scoped(u, scope)
    case Match(s, arms) => Scoped(s, scope) && ScopedArms(arms, scope)
    case Block(items) => ScopedItems(items, scope)
    case Lambda(ps, b) => Scoped(b, scope + Set(ps))
  }

  predicate ScopedAll(es: Exprs, scope: set<Name>)
    decreases es
  {
    es.Cons? ==> Scoped(es.head, scope) && ScopedAll(es.tail, scope)
  }

  predicate ScopedItems(items: Items, scope: set<Name>)
    decreases items
  {
    match items
    case End => true
    case Let(p, r, rest) => Scoped(r, scope) && ScopedItems(rest, scope + Set(Binders(p)))
    case Stmt(e, rest) => Scoped(e, scope) && ScopedItems(rest, scope)
  }

  predicate ScopedArms(arms: Arms, scope: set<Name>)
    decreases arms
  {
    arms.Arm? ==>
      && (arms.guard.When? ==> Scoped(arms.guard.cond, scope + Set(Binders(arms.pat))))
      && Scoped(arms.body, scope + Set(Binders(arms.pat))) && ScopedArms(arms.rest, scope)
  }

  /** The last segment of a dotted path. */
  function LastSegment(path: Name): Name {
    if '.' in path then
      assert |path| > 0;
      LastSegment(path[1..])
    else path
  }

  function DeclNames(d: Decl): seq<Name> {
    match d
    case Fn(f, _, _) => [f]
    case Test(_) => []
    case TypeDecl(t, vs) => [t] + vs
    case Alias(a) => [a]
    case Selection(xs) => xs
    case Import(path) => [LastSegment(path)]
  }

  function TopLevel(decls: seq<Decl>): seq<Name> {
    if decls == [] then [] else TopLevel(decls[..|decls| - 1]) + DeclNames(decls[|decls| - 1])
  }

  predicate ScopedDecl(d: Decl, globals: set<Name>) {
    match d
    case Fn(_, ps, b) => Scoped(b, globals + Set(ps))
    case Test(b) => Scoped(b, globals)
    case _ => true
  }

  function Globals(prelude: seq<Name>, decls: seq<Decl>): set<Name> {
    Set(prelude) + Set(TopLevel(decls))
  }

  predicate AllScoped(decls: seq<Decl>, globals: set<Name>) {
    forall i :: 0 <= i < |decls| ==> ScopedDecl(decls[i], globals)
  }

  predicate ScopedProgram(prelude: seq<Name>, decls: seq<Decl>) {
    AllScoped(decls, Globals(prelude, decls))
  }

  // ---------- the checker ----------

  lemma SetNothing(s: set<Name>)
    ensures s + Set([]) == s
  {
  }

  lemma SetAppend(a: seq<Name>, b: seq<Name>)
    ensures Set(a + b) == Set(a) + Set(b)
  {
  }

  function InScope(scopes: seq<seq<Name>>): set<Name> {
    if scopes == [] then {} else InScope(scopes[..|scopes| - 1]) + Set(scopes[|scopes| - 1])
  }

  class Check {
    /** The stack of scopes, the innermost last. */
    var scopes: seq<seq<Name>>
    var hadError: bool

    constructor ()
      ensures scopes == [] && !hadError
    {
      scopes, hadError := [], false;
    }

    method Push()
      modifies this`scopes
      ensures scopes == old(scopes) + [[]]
    {
      scopes := scopes + [[]];
    }

    method Pop()
      requires scopes != []
      modifies this`scopes
      ensures scopes == old(scopes)[..|old(scopes)| - 1]
    {
      scopes := scopes[..|scopes| - 1];
    }

    method Add(x: Name)
      requires scopes != []
      modifies this`scopes
      ensures scopes == Extended(old(scopes), [x])
    {
      var n := |scopes| - 1;
      scopes := scopes[..n] + [scopes[n] + [x]];
    }

    method AddAll(xs: seq<Name>)
      requires scopes != []
      modifies this`scopes
      ensures scopes == Extended(old(scopes), xs)
    {
      var i := 0;
      ExtendNothing(scopes);
      while i < |xs|
        invariant i <= |xs| && scopes == Extended(old(scopes), xs[..i])
      {
        ExtendTwice(old(scopes), xs[..i], [xs[i]]);
        Add(xs[i]);
        assert xs[..i + 1] == xs[..i] + [xs[i]];
        i := i + 1;
      }
      assert xs[..i] == xs;
    }

    method Has(x: Name) returns (found: bool)
      ensures found <==> x in InScope(scopes)
    {
      var n := |scopes|;
      assert scopes[..n] == scopes;
      while n > 0
        invariant 0 <= n <= |scopes|
        invariant x in InScope(scopes) <==> x in InScope(scopes[..n])
      {
        n := n - 1;
        assert scopes[..n + 1][..n] == scopes[..n];
        var i, s := 0, scopes[n];
        while i < |s|
          invariant i <= |s| && x !in s[..i]
        {
          if s[i] == x { return true; }
          i := i + 1;
        }
        assert s[..i] == s;
      }
      found := false;
    }

    method BindPattern(p: Pat)
      requires scopes != []
      modifies this`scopes
      ensures scopes == Extended(old(scopes), Binders(p))
      decreases p
    {
      match p
      case Wild => ExtendNothing(scopes);
      case Lit(_) => ExtendNothing(scopes);
      case Bind(x) => Add(x);
      case List(items) => BindPatterns(items);
      case Variant(_, args) => BindPatterns(args);
    }

    method BindPatterns(ps: seq<Pat>)
      requires scopes != []
      modifies this`scopes
      ensures scopes == Extended(old(scopes), AllBinders(ps))
      decreases ps
    {
      var i := 0;
      ExtendNothing(scopes);
      while i < |ps|
        invariant i <= |ps| && scopes == Extended(old(scopes), AllBinders(ps[..i]))
      {
        assert ps[..i + 1][..i] == ps[..i];
        ExtendTwice(old(scopes), AllBinders(ps[..i]), Binders(ps[i]));
        BindPattern(ps[i]);
        i := i + 1;
      }
      assert ps[..i] == ps;
    }

    /** Reports an error iff some identifier is not bound, and leaves the scopes as they were. */
    method Node(e: Expr)
      requires scopes != []
      modifies this
      ensures scopes == old(scopes)
      ensures hadError <==> old(hadError) || !Scoped(e, InScope(old(scopes)))
      decreases e
    {
      match e
      case Num(_) =>
      case Ident(x) =>
        var found := Has(x);
        if !found { hadError := true; }
      case Op(_, args) => Children(args);
      case Call(f, args) => Node(f); Children(args);
      case If(c, t, u) => Node(c); Node(t); Node(u);
      case Match(s, arms) => Node(s); CheckArms(arms);
      case Block(items) =>
        Push();
        InPushed(old(scopes), []);
        SetNothing(InScope(old(scopes)));
        CheckItems(items);
        Pop();
      case Lambda(ps, b) =>
        Push();
        AddAll(ps);
        InPushed(old(scopes), ps);
        Node(b);
        Pop();
    }

    method Children(es: Exprs)
      requires scopes != []
      modifies this
      ensures scopes == old(scopes)
      ensures hadError <==> old(hadError) || !ScopedAll(es, InScope(old(scopes)))
      decreases es
    {
      if es.Cons? { Node(es.head); Children(es.tail); }
    }

    /** The statements of a block. A `let` adds to the current scope. */
    method CheckItems(items: Items)
      requires scopes != []
      modifies this
      ensures |scopes| == |old(scopes)| && scopes[..|scopes| - 1] == old(scopes)[..|scopes| - 1]
      ensures hadError <==> old(hadError) || !ScopedItems(items, InScope(old(scopes)))
      decreases items
    {
      match items
      case End =>
      case Let(p, r, rest) =>
        Node(r);
        BindPattern(p);
        InExtended(old(scopes), Binders(p));
        CheckItems(rest);
      case Stmt(e, rest) => Node(e); CheckItems(rest);
    }

    method CheckArms(arms: Arms)
      requires scopes != []
      modifies this
      ensures scopes == old(scopes)
      ensures hadError <==> old(hadError) || !ScopedArms(arms, InScope(old(scopes)))
      decreases arms
    {
      if arms.Arm? {
        Push();
        BindPattern(arms.pat);
        InPushed(old(scopes), Binders(arms.pat));
        if arms.guard.When? { Node(arms.guard.cond); }
        Node(arms.body);
        Pop();
        CheckArms(arms.rest);
      }
    }

    method CheckDecl(d: Decl)
      requires scopes != []
      modifies this
      ensures scopes == old(scopes)
      ensures hadError <==> old(hadError) || !ScopedDecl(d, InScope(old(scopes)))
    {
      match d
      case Fn(_, ps, b) =>
        Push();
        AddAll(ps);
        InPushed(old(scopes), ps);
        Node(b);
        Pop();
      case Test(b) =>
        Push();
        InPushed(old(scopes), []);
        SetNothing(InScope(old(scopes)));
        Node(b);
        Pop();
      case _ =>
    }

    /** The first pass gives every declaration's names. */
    method RegisterTopLevel(decls: seq<Decl>)
      requires scopes != []
      modifies this`scopes
      ensures scopes == Extended(old(scopes), TopLevel(decls))
    {
      var i := 0;
      ExtendNothing(scopes);
      while i < |decls|
        invariant i <= |decls| && scopes == Extended(old(scopes), TopLevel(decls[..i]))
      {
        assert decls[..i + 1][..i] == decls[..i];
        ExtendTwice(old(scopes), TopLevel(decls[..i]), DeclNames(decls[i]));
        AddAll(DeclNames(decls[i]));
        i := i + 1;
      }
      assert decls[..i] == decls;
    }

    /** The second pass, over the bodies. */
    method CheckDecls(decls: seq<Decl>, ghost globals: set<Name>)
      requires scopes != [] && InScope(scopes) == globals && !hadError
      modifies this
      ensures scopes == old(scopes)
      ensures hadError <==> !AllScoped(decls, globals)
    {
      var i := 0;
      while i < |decls|
        invariant i <= |decls| && scopes == old(scopes)
        invariant hadError <==> !AllScoped(decls[..i], globals)
      {
        assert decls[..i + 1] == decls[..i] + [decls[i]];
        CheckDecl(decls[i]);
        i := i + 1;
      }
      assert decls[..i] == decls;
    }

    /** The whole check. It rejects exactly the programs with an identifier that is not bound. */
    method Run(prelude: seq<Name>, decls: seq<Decl>) returns (rejected: bool)
      modifies this
      ensures rejected <==> !ScopedProgram(prelude, decls)
    {
      scopes, hadError := [], false;
      Push();
      AddAll(prelude);
      RegisterTopLevel(decls);
      GlobalScope(prelude, decls);
      CheckDecls(decls, Globals(prelude, decls));
      Pop();
      rejected := hadError;
    }
  }

  lemma GlobalScope(prelude: seq<Name>, decls: seq<Decl>)
    ensures InScope(Extended(Extended([[]], prelude), TopLevel(decls))) == Globals(prelude, decls)
  {
    var empty: seq<seq<Name>> := [[]];
    assert InScope(empty) == {} by { assert empty[..0] == []; }
    InExtended(empty, prelude);
    InExtended(Extended(empty, prelude), TopLevel(decls));
  }

  /** The innermost scope with more names. */
  function Extended(scopes: seq<seq<Name>>, xs: seq<Name>): seq<seq<Name>>
    requires scopes != []
  {
    scopes[..|scopes| - 1] + [scopes[|scopes| - 1] + xs]
  }

  lemma InExtended(scopes: seq<seq<Name>>, xs: seq<Name>)
    requires scopes != []
    ensures InScope(Extended(scopes, xs)) == InScope(scopes) + Set(xs)
  {
    var n := |scopes| - 1;
    assert Extended(scopes, xs)[..n] == scopes[..n];
    SetAppend(scopes[n], xs);
  }

  lemma InPushed(scopes: seq<seq<Name>>, xs: seq<Name>)
    ensures InScope(scopes + [xs]) == InScope(scopes) + Set(xs)
    ensures Extended(scopes + [[]], xs) == scopes + [xs] && (scopes + [xs])[..|scopes|] == scopes
  {
    var s := scopes + [[]];
    assert s[..|scopes|] == scopes && s[|scopes|] + xs == xs;
  }

  lemma ExtendNothing(scopes: seq<seq<Name>>)
    requires scopes != []
    ensures Extended(scopes, []) == scopes
  {
    var n := |scopes| - 1;
    assert scopes[n] + [] == scopes[n] && scopes == scopes[..n] + [scopes[n]];
  }

  lemma ExtendTwice(scopes: seq<seq<Name>>, xs: seq<Name>, ys: seq<Name>)
    requires scopes != []
    ensures Extended(Extended(scopes, xs), ys) == Extended(scopes, xs + ys)
  {
    var n := |scopes| - 1;
    assert Extended(scopes, xs)[..n] == scopes[..n] && Extended(scopes, xs)[n] == scopes[n] + xs;
    assert (scopes[n] + xs) + ys == scopes[n] + (xs + ys);
  }
}
