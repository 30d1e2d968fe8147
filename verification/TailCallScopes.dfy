/** A C variable is in scope, and not yet set, in its own initialiser. Nothing comes of that when
    the initialiser does not read the name. */
module TailCallScopes {
  import opened Stage0
  import opened TailCalls
  import opened UseCount
  import opened CScopes

  // ---------- counts ----------

  lemma HitWithout(id: Id, x: Name, outer: seq<Decl>, d: Decl, inner: seq<Decl>)
    requires x != d.name || d.name in Names(inner)
    ensures Hit(id, x, outer + [d] + inner) == Hit(id, x, outer + inner)
  {
    InnermostAppend(outer + [d], inner, x);
    InnermostAppend(outer, inner, x);
    InnermostAppend(outer, [d], x);
    if x == d.name { NameFound(x, inner); }
    assert Innermost([d], x) == if x == d.name then 0 else -1;
  }

  /** A variable that is not read changes no count. */
  lemma {:induction false} CountsWithout(id: Id, e: Expr, outer: seq<Decl>, d: Decl, inner: seq<Decl>)
    requires d.name in Names(inner) || !Free(d.name, e)
    ensures Uses(id, e, outer + [d] + inner) == Uses(id, e, outer + inner)
    ensures LamUses(id, e, outer + [d] + inner) == LamUses(id, e, outer + inner)
    decreases e, 0
  {
    match e
    case Lit(_) =>
    case Var(x) => HitWithout(id, x, outer, d, inner);
    case Prim(_, args) => ArgsCountsWithout(id, args, outer, d, inner);
    case Call(f, args, _) => HitWithout(id, f, outer, d, inner); ArgsCountsWithout(id, args, outer, d, inner);
    case If(c, t, u) =>
      CountsWithout(id, c, outer, d, inner);
      CountsWithout(id, t, outer, d, inner);
      CountsWithout(id, u, outer, d, inner);
    case Match(m, arms) => CountsWithout(id, m, outer, d, inner); ArmsCountsWithout(id, arms, outer, d, inner);
    case Let(p, r, b) => CountsWithout(id, r, outer, d, inner); CountsDeeper(id, b, outer, d, inner, PatDecls(p));
    case Then(a, b) => CountsWithout(id, a, outer, d, inner); CountsWithout(id, b, outer, d, inner);
    case Lambda(ps, b) =>
      assert Names(Shadowed(ps)) == ps;
      CountsDeeper(id, b, outer, d, inner, Shadowed(ps));
    case Block(b) => CountsWithout(id, b, outer, d, inner);
  }

  lemma CountsDeeper(id: Id, e: Expr, outer: seq<Decl>, d: Decl, inner: seq<Decl>, more: seq<Decl>)
    requires d.name in Names(inner) || d.name in Names(more) || !Free(d.name, e)
    ensures Uses(id, e, outer + [d] + inner + more) == Uses(id, e, outer + inner + more)
    ensures LamUses(id, e, outer + [d] + inner + more) == LamUses(id, e, outer + inner + more)
    decreases e, 1
  {
    assert Names(inner + more) == Names(inner) + Names(more);
    assert outer + [d] + inner + more == outer + [d] + (inner + more) && outer + inner + more == outer + (inner + more);
    CountsWithout(id, e, outer, d, inner + more);
  }

  lemma {:induction false} ArgsCountsWithout(id: Id, es: Args, outer: seq<Decl>, d: Decl, inner: seq<Decl>)
    requires d.name in Names(inner) || !FreeArgs(d.name, es)
    ensures ArgsUses(id, es, outer + [d] + inner) == ArgsUses(id, es, outer + inner)
    ensures ArgsLamUses(id, es, outer + [d] + inner) == ArgsLamUses(id, es, outer + inner)
    decreases es, 0
  {
    if es.Arg? { CountsWithout(id, es.head, outer, d, inner); ArgsCountsWithout(id, es.rest, outer, d, inner); }
  }

  lemma {:induction false} ArmsCountsWithout(id: Id, arms: Arms, outer: seq<Decl>, d: Decl, inner: seq<Decl>)
    requires d.name in Names(inner) || !FreeArms(d.name, arms)
    ensures ArmsUses(id, arms, outer + [d] + inner) == ArmsUses(id, arms, outer + inner)
    ensures ArmsLamUses(id, arms, outer + [d] + inner) == ArmsLamUses(id, arms, outer + inner)
    decreases arms, 0
  {
    if arms.Arm? {
      if arms.guard.When? { CountsDeeper(id, arms.guard.cond, outer, d, inner, PatDecls(arms.pat)); }
      CountsDeeper(id, arms.body, outer, d, inner, PatDecls(arms.pat));
      ArmsCountsWithout(id, arms.rest, outer, d, inner);
    }
  }

  // ---------- values ----------

  /** `x` is a variable that `e` does not read, with an identity of its own. */
  predicate Idle(x: Bound, e: Expr, outer: Env, inner: Env) {
    && (x.decl.name in Names(Decls(inner)) || !Free(x.decl.name, e))
    && Own(x, Binders(e), outer, inner)
  }

  predicate Own(x: Bound, binders: set<Id>, outer: Env, inner: Env) {
    x.decl.id != NoId && x.decl.id !in Ids(Decls(outer)) && x.decl.id !in Ids(Decls(inner)) && x.decl.id !in binders
  }

  lemma DeclsAppend(a: Env, b: Env)
    ensures Decls(a + b) == Decls(a) + Decls(b)
  {
  }

  lemma DeclsWith(outer: Env, x: Bound, inner: Env)
    ensures Decls(outer + [x] + inner) == Decls(outer) + [x.decl] + Decls(inner)
    ensures Decls(outer + inner) == Decls(outer) + Decls(inner)
  {
  }

  lemma FindsSame(y: Name, outer: Env, x: Bound, inner: Env)
    requires y != x.decl.name || x.decl.name in Names(Decls(inner))
    ensures var k, j := Innermost(Decls(outer + [x] + inner), y), Innermost(Decls(outer + inner), y);
      (k >= 0 <==> j >= 0) && (k >= 0 ==> (outer + [x] + inner)[k] == (outer + inner)[j])
  {
    DeclsWith(outer, x, inner);
    var o, i, d := Decls(outer), Decls(inner), x.decl;
    InnermostAppend(o + [d], i, y);
    InnermostAppend(o, i, y);
    InnermostAppend(o, [d], y);
    if y == d.name { NameFound(y, i); }
    assert Innermost([d], y) == if y == d.name then 0 else -1;
  }

  /** A closure does not capture it. */
  lemma {:induction false} CapturedSame(ps: seq<Name>, b: Expr, env: Env, all: seq<Decl>, all': seq<Decl>)
    requires forall id: Id :: Uses(id, b, all + Shadowed(ps)) == Uses(id, b, all' + Shadowed(ps))
    ensures Captured(ps, b, env, all) == Captured(ps, b, env, all')
  {
    if env != [] { CapturedSame(ps, b, env[..|env| - 1], all, all'); }
  }

  lemma {:induction false} CapturedAppend(ps: seq<Name>, b: Expr, a: Env, c: Env, all: seq<Decl>)
    ensures Captured(ps, b, a + c, all) == Captured(ps, b, a, all) + Captured(ps, b, c, all)
  {
    if c == [] {
      assert a + c == a;
    } else {
      assert (a + c)[..|a + c| - 1] == a + c[..|c| - 1];
      CapturedAppend(ps, b, a, c[..|c| - 1], all);
    }
  }

  lemma CapturedWithout(ps: seq<Name>, b: Expr, outer: Env, x: Bound, inner: Env)
    requires Idle(x, Lambda(ps, b), outer, inner)
    ensures Captured(ps, b, outer + [x] + inner, Decls(outer + [x] + inner)) == Captured(ps, b, outer + inner, Decls(outer + inner))
  {
    var all, all' := Decls(outer + [x] + inner), Decls(outer + inner);
    DeclsWith(outer, x, inner);
    assert Names(Shadowed(ps)) == ps;
    forall id: Id ensures Uses(id, b, all + Shadowed(ps)) == Uses(id, b, all' + Shadowed(ps)) {
      CountsDeeper(id, b, Decls(outer), x.decl, Decls(inner), Shadowed(ps));
    }
    CapturedSame(ps, b, outer + [x] + inner, all, all');
    CapturedAppend(ps, b, outer + [x], inner, all');
    CapturedAppend(ps, b, outer, [x], all');
    CapturedAppend(ps, b, outer, inner, all');
    IdsAppend(Decls(outer), Decls(inner));
    IdsAppend(all', Shadowed(ps));
    Unused(x.decl.id, b, all' + Shadowed(ps));
    assert Captured(ps, b, [x][..0], all') == [];
    assert Captured(ps, b, [x], all') == [];
    assert Captured(ps, b, outer, all') + [] == Captured(ps, b, outer, all');
  }

  /** The same under the binders of a pattern. */
  lemma IdleDeeper(x: Bound, e: Expr, outer: Env, inner: Env, more: Env)
    requires x.decl.name in Names(Decls(inner)) || x.decl.name in Names(Decls(more)) || !Free(x.decl.name, e)
    requires Own(x, Binders(e), outer, inner) && x.decl.id !in Ids(Decls(more))
    ensures Idle(x, e, outer, inner + more) && outer + [x] + inner + more == outer + [x] + (inner + more)
    ensures outer + inner + more == outer + (inner + more)
  {
    DeclsAppend(inner, more);
    IdsAppend(Decls(inner), Decls(more));
    assert Names(Decls(inner) + Decls(more)) == Names(Decls(inner)) + Names(Decls(more));
  }

  /** A variable that is not read changes no result. */
  lemma {:induction false} EvalWithout(p: Program, fuel: nat, e: Expr, outer: Env, x: Bound, inner: Env)
    requires Idle(x, e, outer, inner)
    ensures Eval(p, fuel, e, outer + [x] + inner) == Eval(p, fuel, e, outer + inner)
    decreases e, 1
  {
    match e
    case Lit(_) =>
    case Var(y) => FindsSame(y, outer, x, inner);
    case Prim(_, args) => ArgsWithout(p, fuel, args, outer, x, inner);
    case Call(_, _, _) => CallWithout(p, fuel, e, outer, x, inner);
    case If(c, t, u) =>
      EvalWithout(p, fuel, c, outer, x, inner);
      EvalWithout(p, fuel, t, outer, x, inner);
      EvalWithout(p, fuel, u, outer, x, inner);
    case Match(_, _) => MatchWithout(p, fuel, e, outer, x, inner);
    case Let(_, _, _) => LetWithout(p, fuel, e, outer, x, inner);
    case Then(a, b) =>
      EvalWithout(p, fuel, a, outer, x, inner);
      EvalWithout(p, fuel, b, outer, x, inner);
    case Lambda(ps, b) => CapturedWithout(ps, b, outer, x, inner);
    case Block(b) => EvalWithout(p, fuel, b, outer, x, inner);
  }

  lemma CallWithout(p: Program, fuel: nat, e: Expr, outer: Env, x: Bound, inner: Env)
    requires Idle(x, e, outer, inner) && e.Call?
    ensures Eval(p, fuel, e, outer + [x] + inner) == Eval(p, fuel, e, outer + inner)
    decreases e, 0
  {
    FindsSame(e.callee, outer, x, inner);
    ArgsWithout(p, fuel, e.args, outer, x, inner);
  }

  lemma MatchWithout(p: Program, fuel: nat, e: Expr, outer: Env, x: Bound, inner: Env)
    requires Idle(x, e, outer, inner) && e.Match?
    ensures Eval(p, fuel, e, outer + [x] + inner) == Eval(p, fuel, e, outer + inner)
    decreases e, 0
  {
    EvalWithout(p, fuel, e.scrutinee, outer, x, inner);
    var r := Eval(p, fuel, e.scrutinee, outer + inner);
    if r.Val? { ArmsWithout(p, fuel, r.v, e.arms, outer, x, inner); }
  }

  lemma LetWithout(p: Program, fuel: nat, e: Expr, outer: Env, x: Bound, inner: Env)
    requires Idle(x, e, outer, inner) && e.Let?
    ensures Eval(p, fuel, e, outer + [x] + inner) == Eval(p, fuel, e, outer + inner)
    decreases e, 0
  {
    EvalWithout(p, fuel, e.rhs, outer, x, inner);
    var o := Eval(p, fuel, e.rhs, outer + inner);
    if o.Val? && Matches(e.pat, o.v) { BodyWithout(p, fuel, e.pat, o.v, e.body, outer, x, inner); }
  }

  lemma BodyWithout(p: Program, fuel: nat, pat: Pat, v: V, b: Expr, outer: Env, x: Bound, inner: Env)
    requires Matches(pat, v) && Own(x, Binders(b), outer, inner) && x.decl.id !in Ids(PatDecls(pat))
    requires x.decl.name in Names(Decls(inner)) || x.decl.name in Names(PatDecls(pat)) || !Free(x.decl.name, b)
    ensures Eval(p, fuel, b, outer + [x] + inner + Binds(pat, v)) == Eval(p, fuel, b, outer + inner + Binds(pat, v))
    decreases b, 2
  {
    IdleDeeper(x, b, outer, inner, Binds(pat, v));
    EvalWithout(p, fuel, b, outer, x, inner + Binds(pat, v));
  }

  lemma {:induction false} ArgsWithout(p: Program, fuel: nat, es: Args, outer: Env, x: Bound, inner: Env)
    requires x.decl.name in Names(Decls(inner)) || !FreeArgs(x.decl.name, es)
    requires Own(x, ArgsBinders(es), outer, inner)
    ensures EvalArgs(p, fuel, es, outer + [x] + inner) == EvalArgs(p, fuel, es, outer + inner)
    decreases es, 1
  {
    if es.Arg? {
      EvalWithout(p, fuel, es.head, outer, x, inner);
      ArgsWithout(p, fuel, es.rest, outer, x, inner);
    }
  }

  lemma {:induction false} ArmsWithout(p: Program, fuel: nat, v: V, arms: Arms, outer: Env, x: Bound, inner: Env)
    requires x.decl.name in Names(Decls(inner)) || !FreeArms(x.decl.name, arms)
    requires Own(x, ArmsBinders(arms), outer, inner)
    ensures EvalArms(p, fuel, v, arms, outer + [x] + inner) == EvalArms(p, fuel, v, arms, outer + inner)
    decreases arms, 1
  {
    if arms.Arm? {
      ArmsWithout(p, fuel, v, arms.rest, outer, x, inner);
      if Matches(arms.pat, v) {
        BodyWithout(p, fuel, arms.pat, v, arms.body, outer, x, inner);
        if arms.guard.When? {
          assert GuardBinders(arms.guard) == Binders(arms.guard.cond);
          BodyWithout(p, fuel, arms.pat, v, arms.guard.cond, outer, x, inner);
        }
      }
    }
  }

  // ---------- well-formed code, also in closures ----------

  /** Each declaration is a node of its own, and no `let` reads an outer variable of its name. */
  predicate Good(e: Expr) {
    Apart(e) && NoSelfRead(e) && NoId !in Binders(e)
  }

  predicate GoodArgs(es: Args) {
    ApartArgs(es) && NoSelfReadArgs(es) && NoId !in ArgsBinders(es)
  }

  predicate GoodArms(arms: Arms) {
    ApartArms(arms) && NoSelfReadArms(arms) && NoId !in ArmsBinders(arms)
  }

  /** The closures in a value are made of such code, and their variables have no identity. */
  predicate GoodV(v: V)
    decreases v
  {
    match v
    case Data(_, args) => forall i :: 0 <= i < |args| ==> GoodV(args[i])
    case Closure(_, b, env) => Good(b) && forall i :: 0 <= i < |env| ==> env[i].decl.id == NoId && GoodV(env[i].v)
    case _ => true
  }

  predicate AllGood(vs: seq<V>) {
    forall i :: 0 <= i < |vs| ==> GoodV(vs[i])
  }

  predicate GoodEnv(env: Env) {
    forall i :: 0 <= i < |env| ==> GoodV(env[i].v)
  }

  predicate GivesGood(p: Program, op: Name, vs: seq<V>) {
    p.prim(op, vs).Some? ==> GoodV(p.prim(op, vs).value)
  }

  /** Operators make no closures of other code. */
  ghost predicate TamePrim(p: Program) {
    forall op, vs :: AllGood(vs) ==> GivesGood(p, op, vs)
  }

  ghost predicate GoodCode(p: Program) {
    TamePrim(p) && forall f <- p.fns :: Good(p.fns[f].body)
  }

  lemma {:induction false} GoodBinds(pat: Pat, v: V)
    requires Matches(pat, v) && GoodV(v)
    ensures GoodEnv(Binds(pat, v))
    decreases pat
  {
    if pat.Con? { AllGoodBinds(pat.args, v.args); }
  }

  lemma {:induction false} AllGoodBinds(ps: seq<Pat>, vs: seq<V>)
    requires |ps| == |vs| && AllMatch(ps, vs) && AllGood(vs)
    ensures GoodEnv(AllBinds(ps, vs))
    decreases ps
  {
    if ps != [] {
      GoodBinds(ps[0], vs[0]);
      AllGoodBinds(ps[1..], vs[1..]);
    }
  }

  lemma {:induction false} GoodCaptured(ps: seq<Name>, b: Expr, env: Env, all: seq<Decl>)
    requires GoodEnv(env)
    ensures var c := Captured(ps, b, env, all); GoodEnv(c) && forall i :: 0 <= i < |c| ==> c[i].decl.id == NoId
  {
    if env != [] { GoodCaptured(ps, b, env[..|env| - 1], all); }
  }

  lemma {:induction false} EvalGood(p: Program, fuel: nat, e: Expr, env: Env)
    requires GoodCode(p) && GoodEnv(env) && Good(e)
    ensures var r := Eval(p, fuel, e, env); r.Val? ==> GoodV(r.v)
    decreases fuel, 2, e, 1
  {
    match e
    case Lit(_) =>
    case Var(_) =>
    case Prim(op, args) =>
      ArgsGood(p, fuel, args, env);
      var r := EvalArgs(p, fuel, args, env);
      if r.Val? { assert GivesGood(p, op, r.v); }
    case Call(f, args, _) =>
      ArgsGood(p, fuel, args, env);
      var fv, r := if Innermost(Decls(env), f) >= 0 then ReadVar(p, f, env) else Val(FunRef(f)), EvalArgs(p, fuel, args, env);
      if fv.Val? && r.Val? { ApplyGood(p, fuel, fv.v, r.v); }
    case If(c, t, u) =>
      EvalGood(p, fuel, t, env);
      EvalGood(p, fuel, u, env);
    case Match(m, arms) =>
      EvalGood(p, fuel, m, env);
      var r := Eval(p, fuel, m, env);
      if r.Val? { ArmsGood(p, fuel, r.v, arms, env); }
    case Let(pat, r, b) =>
      EvalGood(p, fuel, r, env);
      var o := Eval(p, fuel, r, env);
      if o.Val? && Matches(pat, o.v) {
        GoodBinds(pat, o.v);
        EvalGood(p, fuel, b, env + Binds(pat, o.v));
      }
    case Then(_, b) => EvalGood(p, fuel, b, env);
    case Lambda(ps, b) => GoodCaptured(ps, b, env, Decls(env));
    case Block(b) => EvalGood(p, fuel, b, env);
  }

  lemma {:induction false} ArgsGood(p: Program, fuel: nat, es: Args, env: Env)
    requires GoodCode(p) && GoodEnv(env) && GoodArgs(es)
    ensures var r := EvalArgs(p, fuel, es, env); r.Val? ==> AllGood(r.v)
    decreases fuel, 2, es, 1
  {
    if es.Arg? { EvalGood(p, fuel, es.head, env); ArgsGood(p, fuel, es.rest, env); }
  }

  lemma {:induction false} ArmsGood(p: Program, fuel: nat, v: V, arms: Arms, env: Env)
    requires GoodCode(p) && GoodEnv(env) && GoodArms(arms) && GoodV(v)
    ensures var r := EvalArms(p, fuel, v, arms, env); r.Val? ==> GoodV(r.v)
    decreases fuel, 2, arms, 1
  {
    if arms.Arm? {
      ArmsGood(p, fuel, v, arms.rest, env);
      if Matches(arms.pat, v) {
        GoodBinds(arms.pat, v);
        EvalGood(p, fuel, arms.body, env + Binds(arms.pat, v));
      }
    }
  }

  lemma {:induction false} ApplyGood(p: Program, fuel: nat, f: V, vs: seq<V>)
    requires GoodCode(p) && GoodV(f) && AllGood(vs)
    ensures var r := Apply(p, fuel, f, vs); r.Val? ==> GoodV(r.v)
    decreases fuel, 1
  {
    match f
    case FunRef(g) => if g in p.fns { CallGood(p, fuel, g, vs); }
    case Closure(ps, b, env) =>
      if |ps| == |vs| && fuel > 0 { EvalGood(p, fuel - 1, b, Zip(Shadowed(ps), vs) + env); }
    case _ =>
  }

  lemma {:induction false} CallGood(p: Program, fuel: nat, f: Name, vs: seq<V>)
    requires GoodCode(p) && f in p.fns && AllGood(vs)
    ensures var r := CallFn(p, fuel, p.fns[f], vs); r.Val? ==> GoodV(r.v)
    decreases fuel, 0
  {
    if |vs| == |p.fns[f].params| && fuel > 0 { EvalGood(p, fuel - 1, p.fns[f].body, Zip(p.fns[f].params, vs)); }
  }
}
