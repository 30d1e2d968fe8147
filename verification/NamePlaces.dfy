/** The verdict of the name checker, place by place: which names a program declares, and which of its
    identifiers nothing binds. */
module NamePlaces {
  import opened Checker

  // ---------- what a program declares ----------

  /** `x` is what follows the last dot of the path. */
  ghost predicate IsLast(path: Name, x: Name) {
    '.' !in x && (path == x || exists k :: 0 <= k < |path| && path[k] == '.' && path[k + 1..] == x)
  }

  /** The declaration makes the name `x`. */
  ghost predicate Makes(d: Decl, x: Name) {
    match d
    case Fn(f, _, _) => x == f
    case Test(_) => false
    case TypeDecl(t, variants) => x == t || exists j :: 0 <= j < |variants| && variants[j] == x
    case Alias(a) => x == a
    case Selection(names) => exists j :: 0 <= j < |names| && names[j] == x
    case Import(path) => IsLast(path, x)
  }

  lemma {:induction false} LastIsLast(path: Name, x: Name)
    ensures LastSegment(path) == x <==> IsLast(path, x)
    decreases |path|
  {
    if '.' in path {
      var tail := path[1..];
      LastIsLast(tail, x);
      if k :| 0 <= k < |tail| && tail[k] == '.' && tail[k + 1..] == x { assert path[k + 1] == '.' && path[k + 2..] == x; }
      if k :| 0 <= k < |path| && path[k] == '.' && path[k + 1..] == x {
        if k > 0 { assert tail[k - 1] == '.' && tail[k..] == x; }
      }
      if tail == x && '.' !in x {
        assert path == [path[0]] + tail;
        assert path[0] == '.' && path[0 + 1..] == x;
      }
    }
  }

  lemma DeclMakes(d: Decl, x: Name)
    ensures x in DeclNames(d) <==> Makes(d, x)
  {
    if d.Import? { LastIsLast(d.path, x); }
  }

  lemma {:induction false} Declared(decls: seq<Decl>, x: Name)
    ensures x in TopLevel(decls) <==> exists i :: 0 <= i < |decls| && Makes(decls[i], x)
  {
    if decls != [] {
      var n := |decls| - 1;
      Declared(decls[..n], x);
      DeclMakes(decls[n], x);
      if i :| 0 <= i < n && Makes(decls[..n][i], x) { assert Makes(decls[i], x); }
      if i :| 0 <= i < |decls| && Makes(decls[i], x) {
        if i < n { assert Makes(decls[..n][i], x); }
      }
    }
  }

  /** The names in scope everywhere are those of the prelude and those that some declaration makes. */
  lemma GlobalsAreMade(prelude: seq<Name>, decls: seq<Decl>, x: Name)
    ensures x in Globals(prelude, decls) <==> x in prelude || exists i :: 0 <= i < |decls| && Makes(decls[i], x)
  {
    Declared(decls, x);
  }

  // ---------- what a pattern binds ----------

  /** A place in a pattern: which part of which part. */
  function PatAt(p: Pat, at: seq<nat>): (r: seq<Pat>)
    ensures |r| <= 1
  {
    if at == [] then [p]
    else match p
      case List(ps) => if at[0] < |ps| then PatAt(ps[at[0]], at[1..]) else []
      case Variant(_, ps) => if at[0] < |ps| then PatAt(ps[at[0]], at[1..]) else []
      case _ => []
  }

  predicate BindsAt(p: Pat, at: seq<nat>, x: Name) {
    PatAt(p, at) == [Bind(x)]
  }

  lemma {:induction false} BinderFound(p: Pat, x: Name) returns (at: seq<nat>)
    requires x in Binders(p)
    ensures BindsAt(p, at, x)
    decreases p, 0
  {
    at := [];
    if !p.Bind? {
      var ps := if p.List? then p.items else p.args;
      var i, rest := SomeBinder(ps, x);
      at := [i] + rest;
      assert at[1..] == rest;
    }
  }

  lemma {:induction false} SomeBinder(ps: seq<Pat>, x: Name) returns (i: nat, at: seq<nat>)
    requires x in AllBinders(ps)
    ensures i < |ps| && BindsAt(ps[i], at, x)
    decreases ps, |ps|
  {
    var n := |ps| - 1;
    if x in Binders(ps[n]) {
      i := n;
      at := BinderFound(ps[n], x);
    } else {
      i, at := SomeBinder(ps[..n], x);
    }
  }

  lemma {:induction false} FoundBinder(p: Pat, at: seq<nat>, x: Name)
    requires BindsAt(p, at, x)
    ensures x in Binders(p)
    decreases |at|
  {
    if at != [] {
      var ps := if p.List? then p.items else p.args;
      FoundBinder(ps[at[0]], at[1..], x);
      BinderOfAll(ps, at[0], x);
    }
  }

  lemma {:induction false} BinderOfAll(ps: seq<Pat>, i: nat, x: Name)
    requires i < |ps| && x in Binders(ps[i])
    ensures x in AllBinders(ps)
  {
    if i < |ps| - 1 { BinderOfAll(ps[..|ps| - 1], i, x); }
  }

  /** A pattern binds the names that stand somewhere in it. */
  lemma BindersByPlace(p: Pat, x: Name)
    ensures x in Binders(p) <==> exists at :: BindsAt(p, at, x)
  {
    if x in Binders(p) { var at := BinderFound(p, x); }
    if at :| BindsAt(p, at, x) { FoundBinder(p, at, x); }
  }

  // ---------- places in an expression ----------

  datatype Step =
    | Callee | Argument(k: nat)
    | Cond | Yes | No
    | Scrutinee | GuardOf(arm: nat) | BodyOf(arm: nat)
    | Statement(k: nat)
    | LambdaBody

  type Path = seq<Step>

  datatype Option<T> = None | Some(value: T)

  function Nth(es: Exprs, k: nat): (c: Option<Expr>)
    ensures c.Some? ==> c.value < es
  {
    if es.Nil? then None else if k == 0 then Some(es.head) else Nth(es.tail, k - 1)
  }

  /** The arms, or the statements, from the k-th on. */
  function ArmsFrom(arms: Arms, k: nat): (r: Arms)
    ensures r == arms || r < arms
  {
    if k == 0 || arms.NoArms? then arms else ArmsFrom(arms.rest, k - 1)
  }

  function ItemsFrom(items: Items, k: nat): (r: Items)
    ensures r == items || r < items
  {
    if k == 0 || items.End? then items else ItemsFrom(items.rest, k - 1)
  }

  function StatementAt(items: Items, k: nat): (c: Option<Expr>)
    ensures c.Some? ==> c.value < items
  {
    match ItemsFrom(items, k)
    case End => None
    case Let(_, r, _) => Some(r)
    case Stmt(e, _) => Some(e)
  }

  function Child(e: Expr, s: Step): (c: Option<Expr>)
    ensures c.Some? ==> c.value < e
  {
    match s
    case Callee => if e.Call? then Some(e.callee) else None
    case Argument(k) => if e.Op? || e.Call? then Nth(e.args, k) else None
    case Cond => if e.If? then Some(e.cond) else None
    case Yes => if e.If? then Some(e.yes) else None
    case No => if e.If? then Some(e.no) else None
    case Scrutinee => if e.Match? then Some(e.scrutinee) else None
    case GuardOf(k) =>
      if e.Match? && ArmsFrom(e.arms, k).Arm? && ArmsFrom(e.arms, k).guard.When? then Some(ArmsFrom(e.arms, k).guard.cond) else None
    case BodyOf(k) => if e.Match? && ArmsFrom(e.arms, k).Arm? then Some(ArmsFrom(e.arms, k).body) else None
    case Statement(k) => if e.Block? then StatementAt(e.items, k) else None
    case LambdaBody => if e.Lambda? then Some(e.body) else None
  }

  /** The j-th statement is a `let` that binds `x`. */
  predicate LetBinds(items: Items, j: nat, x: Name) {
    ItemsFrom(items, j).Let? && x in Binders(ItemsFrom(items, j).pat)
  }

  /** A parameter, the pattern of the arm, or a `let` before the statement binds `x` there. */
  ghost predicate BoundBy(e: Expr, s: Step, x: Name) {
    match s
    case GuardOf(k) => e.Match? && ArmsFrom(e.arms, k).Arm? && x in Binders(ArmsFrom(e.arms, k).pat)
    case BodyOf(k) => e.Match? && ArmsFrom(e.arms, k).Arm? && x in Binders(ArmsFrom(e.arms, k).pat)
    case Statement(k) => e.Block? && exists j: nat :: j < k && LetBinds(e.items, j, x)
    case LambdaBody => e.Lambda? && x in e.params
    case _ => false
  }

  function At(e: Expr, path: Path): Option<Expr>
    decreases |path|
  {
    if path == [] then Some(e)
    else if Child(e, path[0]).None? then None
    else At(Child(e, path[0]).value, path[1..])
  }

  /** Something on the way to the place binds `x`. */
  ghost predicate BoundAround(e: Expr, path: Path, x: Name)
    decreases |path|
  {
    path != [] && Child(e, path[0]).Some? && (BoundBy(e, path[0], x) || BoundAround(Child(e, path[0]).value, path[1..], x))
  }

  /** At this place is the identifier `x`, and nothing around it binds it. */
  ghost predicate UnboundAt(e: Expr, path: Path, x: Name) {
    At(e, path) == Some(Ident(x)) && !BoundAround(e, path, x)
  }

  // ---------- the verdict ----------

  lemma {:induction false} BadArgument(es: Exprs, scope: set<Name>) returns (k: nat)
    requires !ScopedAll(es, scope)
    ensures Nth(es, k).Some? && !Scoped(Nth(es, k).value, scope)
    decreases es
  {
    if !Scoped(es.head, scope) {
      k := 0;
    } else {
      k := BadArgument(es.tail, scope);
      k := k + 1;
    }
  }

  lemma {:induction false} ArgumentBad(es: Exprs, scope: set<Name>, k: nat)
    requires Nth(es, k).Some? && !Scoped(Nth(es, k).value, scope)
    ensures !ScopedAll(es, scope)
    decreases k
  {
    if k > 0 { ArgumentBad(es.tail, scope, k - 1); }
  }

  predicate BadInArm(a: Arms, scope: set<Name>) {
    a.Arm? && var inner := scope + Set(Binders(a.pat)); !Scoped(a.body, inner) || (a.guard.When? && !Scoped(a.guard.cond, inner))
  }

  lemma {:induction false} BadArm(arms: Arms, scope: set<Name>) returns (k: nat)
    requires !ScopedArms(arms, scope)
    ensures BadInArm(ArmsFrom(arms, k), scope)
    decreases arms
  {
    if BadInArm(arms, scope) {
      k := 0;
    } else {
      k := BadArm(arms.rest, scope);
      k := k + 1;
    }
  }

  lemma {:induction false} ArmBad(arms: Arms, scope: set<Name>, k: nat)
    requires BadInArm(ArmsFrom(arms, k), scope)
    ensures !ScopedArms(arms, scope)
    decreases k
  {
    if k > 0 { ArmBad(arms.rest, scope, k - 1); }
  }

  /** What the `let`s before the k-th statement bind. */
  function Before(items: Items, k: nat): set<Name> {
    if k == 0 || items.End? then {} else (if items.Let? then Set(Binders(items.pat)) else {}) + Before(items.rest, k - 1)
  }

  lemma {:induction false} BeforeBinds(items: Items, k: nat, x: Name)
    ensures x in Before(items, k) <==> exists j: nat :: j < k && LetBinds(items, j, x)
    decreases k
  {
    if k > 0 && !items.End? {
      BeforeBinds(items.rest, k - 1, x);
      if j: nat :| j < k - 1 && LetBinds(items.rest, j, x) { assert LetBinds(items, j + 1, x); }
      if j: nat :| j < k && LetBinds(items, j, x) { assert if j == 0 then items.Let? else LetBinds(items.rest, j - 1, x); }
      if items.Let? && x in Binders(items.pat) { assert LetBinds(items, 0, x); }
    }
  }

  lemma {:induction false} BadItem(items: Items, scope: set<Name>) returns (k: nat)
    requires !ScopedItems(items, scope)
    ensures StatementAt(items, k).Some? && !Scoped(StatementAt(items, k).value, scope + Before(items, k))
    decreases items
  {
    assert scope + Before(items, 0) == scope;
    if !Scoped(if items.Let? then items.rhs else items.e, scope) {
      k := 0;
    } else {
      var inner := if items.Let? then scope + Set(Binders(items.pat)) else scope;
      k := BadItem(items.rest, inner);
      assert inner + Before(items.rest, k) == scope + Before(items, k + 1);
      k := k + 1;
    }
  }

  lemma {:induction false} ItemBad(items: Items, scope: set<Name>, k: nat)
    requires StatementAt(items, k).Some? && !Scoped(StatementAt(items, k).value, scope + Before(items, k))
    ensures !ScopedItems(items, scope)
    decreases k
  {
    if k == 0 {
      assert scope + Before(items, 0) == scope;
    } else {
      var inner := if items.Let? then scope + Set(Binders(items.pat)) else scope;
      assert inner + Before(items.rest, k - 1) == scope + Before(items, k);
      ItemBad(items.rest, inner, k - 1);
    }
  }

  function Inner(e: Expr, s: Step, scope: set<Name>): set<Name> {
    match s
    case GuardOf(k) => if e.Match? && ArmsFrom(e.arms, k).Arm? then scope + Set(Binders(ArmsFrom(e.arms, k).pat)) else scope
    case BodyOf(k) => if e.Match? && ArmsFrom(e.arms, k).Arm? then scope + Set(Binders(ArmsFrom(e.arms, k).pat)) else scope
    case Statement(k) => if e.Block? then scope + Before(e.items, k) else scope
    case LambdaBody => if e.Lambda? then scope + Set(e.params) else scope
    case _ => scope
  }

  lemma InnerBinds(e: Expr, s: Step, scope: set<Name>, x: Name)
    ensures x in Inner(e, s, scope) <==> x in scope || BoundBy(e, s, x)
  {
    if e.Block? && s.Statement? { BeforeBinds(e.items, s.k, x); }
  }

  lemma BadStep(e: Expr, scope: set<Name>) returns (s: Step)
    requires !Scoped(e, scope) && !e.Ident?
    ensures Child(e, s).Some? && !Scoped(Child(e, s).value, Inner(e, s, scope))
  {
    match e
    case Op(_, args) => var k := BadArgument(args, scope); s := Argument(k);
    case Call(f, args) =>
      if !Scoped(f, scope) {
        s := Callee;
      } else {
        var k := BadArgument(args, scope);
        s := Argument(k);
      }
    case If(c, t, _) => s := if !Scoped(c, scope) then Cond else if !Scoped(t, scope) then Yes else No;
    case Match(m, arms) =>
      if !Scoped(m, scope) {
        s := Scrutinee;
      } else {
        var k := BadArm(arms, scope);
        s := if !Scoped(ArmsFrom(arms, k).body, Inner(e, BodyOf(k), scope)) then BodyOf(k) else GuardOf(k);
      }
    case Block(items) => var k := BadItem(items, scope); s := Statement(k);
    case Lambda(_, _) => s := LambdaBody;
  }

  lemma StepBad(e: Expr, scope: set<Name>, s: Step)
    requires Child(e, s).Some? && !Scoped(Child(e, s).value, Inner(e, s, scope))
    ensures !Scoped(e, scope)
  {
    match s
    case Argument(k) => ArgumentBad(e.args, scope, k);
    case GuardOf(k) => ArmBad(e.arms, scope, k);
    case BodyOf(k) => ArmBad(e.arms, scope, k);
    case Statement(k) => ItemBad(e.items, scope, k);
    case _ =>
  }

  lemma {:induction false} UnboundFound(e: Expr, scope: set<Name>) returns (path: Path, x: Name)
    requires !Scoped(e, scope)
    ensures UnboundAt(e, path, x) && x !in scope
    decreases e
  {
    if e.Ident? {
      path, x := [], e.name;
    } else {
      var s := BadStep(e, scope);
      path, x := UnboundFound(Child(e, s).value, Inner(e, s, scope));
      InnerBinds(e, s, scope, x);
      var rest := path;
      path := [s] + rest;
      assert path[1..] == rest;
    }
  }

  lemma {:induction false} FoundUnbound(e: Expr, scope: set<Name>, path: Path, x: Name)
    requires UnboundAt(e, path, x) && x !in scope
    ensures !Scoped(e, scope)
    decreases |path|
  {
    if path != [] {
      InnerBinds(e, path[0], scope, x);
      FoundUnbound(Child(e, path[0]).value, Inner(e, path[0], scope), path[1..], x);
      StepBad(e, scope, path[0]);
    }
  }

  /** In the body of this declaration, at this place, is an identifier that is bound by nothing around
      it, no parameter, no declaration and not by the prelude. */
  ghost predicate Undefined(prelude: seq<Name>, decls: seq<Decl>, i: nat, path: Path, x: Name) {
    && i < |decls| && (decls[i].Fn? || decls[i].Test?) && UnboundAt(decls[i].body, path, x)
    && !(decls[i].Fn? && x in decls[i].params)
    && x !in prelude && forall j :: 0 <= j < |decls| ==> !Makes(decls[j], x)
  }

  /** The checker rejects the programs with such an identifier, and no others. */
  lemma RejectsTheUndefined(prelude: seq<Name>, decls: seq<Decl>)
    ensures !ScopedProgram(prelude, decls) <==> exists i, path, x :: Undefined(prelude, decls, i, path, x)
  {
    var globals := Globals(prelude, decls);
    if !ScopedProgram(prelude, decls) {
      var i :| 0 <= i < |decls| && !ScopedDecl(decls[i], globals);
      var path, x := UnboundFound(decls[i].body, Around(decls[i], globals));
      GlobalsAreMade(prelude, decls, x);
      assert Undefined(prelude, decls, i, path, x);
    }
    if i: nat, path, x :| Undefined(prelude, decls, i, path, x) {
      GlobalsAreMade(prelude, decls, x);
      FoundUnbound(decls[i].body, Around(decls[i], globals), path, x);
      assert !ScopedDecl(decls[i], globals);
    }
  }

  function Around(d: Decl, globals: set<Name>): set<Name> {
    if d.Fn? then globals + Set(d.params) else globals
  }

  /** The whole check of a program. */
  method CheckProgram(prelude: seq<Name>, decls: seq<Decl>) returns (rejected: bool)
    ensures rejected <==> exists i, path, x :: Undefined(prelude, decls, i, path, x)
  {
    var c := new Check();
    rejected := c.Run(prelude, decls);
    RejectsTheUndefined(prelude, decls);
  }
}
