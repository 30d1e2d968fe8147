/** Running a program that the checker accepts: no evaluation ever looks up a name that is not
    bound, not even in a closure that is called after the scope it was made in is gone. */
module NameSafety {
  import opened Checker

  // ---------- values and programs ----------

  datatype Binding = Binding(name: Name, value: V)

  /** The variables around an expression, the innermost last. */
  type Env = seq<Binding>

  datatype V =
    | Int(i: int)
    | Data(con: Name, args: seq<V>)
    | ListOf(items: seq<V>)
    | Closure(params: seq<Name>, body: Expr, env: Env)
    | Global(name: Name)

  const Unit := Data("()", [])

  datatype Function = Function(params: seq<Name>, body: Expr)

  datatype Option<T> = None | Some(value: T)

  /** `prim` are the operators, the prelude and the constructors. */
  datatype Program = Program(globals: set<Name>, fns: map<Name, Function>, prim: (Name, seq<V>) -> Option<V>)

  /** Looking up a name that is not bound is an outcome of its own. */
  datatype Res<T> = Val(v: T) | Panic | Timeout | Unbound(name: Name)

  function Find(env: Env, x: Name): (k: int)
    ensures -1 <= k < |env| && (k >= 0 ==> env[k].name == x)
    ensures k < 0 ==> x !in NamesOf(env)
  {
    if env == [] then -1
    else if env[|env| - 1].name == x then |env| - 1
    else
      assert env == env[..|env| - 1] + [env[|env| - 1]];
      Find(env[..|env| - 1], x)
  }

  function NamesOf(env: Env): set<Name> {
    set b | b in env :: b.name
  }

  // ---------- patterns ----------

  predicate Matches(p: Pat, v: V) {
    match p
    case Wild => true
    case Bind(_) => true
    case Lit(i) => v == Int(i)
    case List(items) => v.ListOf? && |v.items| == |items| && AllMatch(items, v.items)
    case Variant(c, args) => v.Data? && v.con == c && |v.args| == |args| && AllMatch(args, v.args)
  }

  predicate AllMatch(ps: seq<Pat>, vs: seq<V>)
    requires |ps| == |vs|
  {
    ps == [] || (AllMatch(ps[..|ps| - 1], vs[..|vs| - 1]) && Matches(ps[|ps| - 1], vs[|vs| - 1]))
  }

  function Binds(p: Pat, v: V): Env
    requires Matches(p, v)
  {
    match p
    case Bind(x) => [Binding(x, v)]
    case List(items) => AllBinds(items, v.items)
    case Variant(_, args) => AllBinds(args, v.args)
    case _ => []
  }

  function AllBinds(ps: seq<Pat>, vs: seq<V>): Env
    requires |ps| == |vs| && AllMatch(ps, vs)
  {
    if ps == [] then [] else
      AllBinds(ps[..|ps| - 1], vs[..|vs| - 1]) + Binds(ps[|ps| - 1], vs[|vs| - 1])
  }

  // ---------- evaluation ----------

  function Zip(xs: seq<Name>, vs: seq<V>): (env: Env)
    requires |xs| == |vs|
    ensures |env| == |xs| && forall k :: 0 <= k < |xs| ==> env[k] == Binding(xs[k], vs[k])
  {
    seq(|xs|, k requires 0 <= k < |xs| => Binding(xs[k], vs[k]))
  }

  predicate Truthy(v: V) { v == Data("true", []) }

  function Eval(p: Program, fuel: nat, e: Expr, env: Env): Res<V>
    decreases fuel, 2, e
  {
    match e
    case Num(i) => Val(Int(i))
    case Ident(x) =>
      var k := Find(env, x);
      if k >= 0 then Val(env[k].value) else if x in p.globals then Val(Global(x)) else Unbound(x)
    case Op(op, args) =>
      (match EvalAll(p, fuel, args, env)
       case Val(vs) => Operate(p, op, vs)
       case Panic => Panic
       case Timeout => Timeout
       case Unbound(x) => Unbound(x))
    case Call(f, args) =>
      (match Eval(p, fuel, f, env)
       case Val(fv) =>
         (match EvalAll(p, fuel, args, env)
          case Val(vs) => Apply(p, fuel, fv, vs)
          case Panic => Panic
          case Timeout => Timeout
          case Unbound(x) => Unbound(x))
       case o => o)
    case If(c, t, u) =>
      (match Eval(p, fuel, c, env)
       case Val(v) => if Truthy(v) then Eval(p, fuel, t, env) else Eval(p, fuel, u, env)
       case o => o)
    case Match(s, arms) =>
      (match Eval(p, fuel, s, env)
       case Val(v) => EvalArms(p, fuel, v, arms, env)
       case o => o)
    case Block(items) => EvalItems(p, fuel, items, Unit, env)
    case Lambda(ps, b) => Val(Closure(ps, b, env))
  }

  function Operate(p: Program, op: Name, vs: seq<V>): Res<V> {
    match p.prim(op, vs)
    case Some(v) => Val(v)
    case None => Panic
  }

  function EvalAll(p: Program, fuel: nat, es: Exprs, env: Env): Res<seq<V>>
    decreases fuel, 2, es
  {
    if es.Nil? then Val([]) else
      match Eval(p, fuel, es.head, env)
      case Panic => Panic
      case Timeout => Timeout
      case Unbound(x) => Unbound(x)
      case Val(v) =>
        match EvalAll(p, fuel, es.tail, env)
        case Val(vs) => Val([v] + vs)
        case o => o
  }

  /** The rest of a block, after a statement with the value `last`. */
  function EvalItems(p: Program, fuel: nat, items: Items, last: V, env: Env): Res<V>
    decreases fuel, 2, items
  {
    match items
    case End => Val(last)
    case Let(pat, r, rest) =>
      (match Eval(p, fuel, r, env)
       case Val(v) => if Matches(pat, v) then EvalItems(p, fuel, rest, Unit, env + Binds(pat, v)) else Panic
       case o => o)
    case Stmt(e, rest) =>
      match Eval(p, fuel, e, env)
      case Val(v) => EvalItems(p, fuel, rest, v, env)
      case o => o
  }

  function EvalArms(p: Program, fuel: nat, v: V, arms: Arms, env: Env): Res<V>
    decreases fuel, 2, arms
  {
    if arms.NoArms? then Panic
    else if !Matches(arms.pat, v) then EvalArms(p, fuel, v, arms.rest, env)
    else
      var inner := env + Binds(arms.pat, v);
      match arms.guard
      case NoGuard => Eval(p, fuel, arms.body, inner)
      case When(c) =>
        match Eval(p, fuel, c, inner)
        case Val(g) => if Truthy(g) then Eval(p, fuel, arms.body, inner) else EvalArms(p, fuel, v, arms.rest, env)
        case o => o
  }

  function Apply(p: Program, fuel: nat, f: V, vs: seq<V>): Res<V>
    decreases fuel, 1
  {
    match f
    case Global(g) => if g in p.fns then CallFn(p, fuel, p.fns[g], vs) else Operate(p, g, vs)
    case Closure(ps, b, env) =>
      if |ps| != |vs| then Panic
      else if fuel == 0 then Timeout
      else Eval(p, fuel - 1, b, env + Zip(ps, vs))
    case _ => Panic
  }

  function CallFn(p: Program, fuel: nat, fn: Function, vs: seq<V>): Res<V>
    decreases fuel, 0
  {
    if |vs| != |fn.params| then Panic
    else if fuel == 0 then Timeout
    else Eval(p, fuel - 1, fn.body, Zip(fn.params, vs))
  }

  // ---------- closed values ----------

  /** Every closure in the value finds the names that its body uses. */
  predicate Closed(v: V, globals: set<Name>)
    decreases v
  {
    match v
    case Data(_, args) => forall i :: 0 <= i < |args| ==> Closed(args[i], globals)
    case ListOf(items) => forall i :: 0 <= i < |items| ==> Closed(items[i], globals)
    case Closure(ps, b, env) =>
      Scoped(b, globals + NamesOf(env) + Set(ps)) && forall i :: 0 <= i < |env| ==> Closed(env[i].value, globals)
    case _ => true
  }

  predicate AllClosed(vs: seq<V>, globals: set<Name>) {
    forall i :: 0 <= i < |vs| ==> Closed(vs[i], globals)
  }

  predicate ClosedEnv(env: Env, globals: set<Name>) {
    forall i :: 0 <= i < |env| ==> Closed(env[i].value, globals)
  }

  /** The runtime makes no closures of its own that would miss a name. */
  ghost predicate TamePrim(p: Program) {
    forall op, vs :: AllClosed(vs, p.globals) ==> GivesClosed(p, op, vs)
  }

  predicate GivesClosed(p: Program, op: Name, vs: seq<V>) {
    p.prim(op, vs).Some? ==> Closed(p.prim(op, vs).value, p.globals)
  }

  predicate Accepted(p: Program) {
    forall f <- p.fns :: Scoped(p.fns[f].body, p.globals + Set(p.fns[f].params))
  }

  predicate Safe(r: Res<V>, globals: set<Name>) {
    !r.Unbound? && (r.Val? ==> Closed(r.v, globals))
  }

  lemma NamesAppend(a: Env, b: Env)
    ensures NamesOf(a + b) == NamesOf(a) + NamesOf(b)
  {
    forall x ensures x in NamesOf(a + b) <==> x in NamesOf(a) + NamesOf(b) {
      if c :| c in a && c.name == x { assert c in a + b; }
      if c :| c in b && c.name == x { assert c in a + b; }
    }
  }

  lemma ZipNames(xs: seq<Name>, vs: seq<V>)
    requires |xs| == |vs|
    ensures NamesOf(Zip(xs, vs)) == Set(xs)
  {
    var env := Zip(xs, vs);
    forall x ensures x in NamesOf(env) <==> x in Set(xs) {
      if k :| 0 <= k < |xs| && xs[k] == x { assert env[k].name == x; }
    }
  }

  lemma {:induction false} BindsNames(p: Pat, v: V, globals: set<Name>)
    requires Matches(p, v) && Closed(v, globals)
    ensures NamesOf(Binds(p, v)) == Set(Binders(p)) && ClosedEnv(Binds(p, v), globals)
    decreases p
  {
    match p
    case Bind(x) =>
      assert Binds(p, v)[0].name == x;
      assert [x][0] == x;
    case List(items) => AllBindsNames(items, v.items, globals);
    case Variant(_, args) => AllBindsNames(args, v.args, globals);
    case _ =>
  }

  lemma {:induction false} AllBindsNames(ps: seq<Pat>, vs: seq<V>, globals: set<Name>)
    requires |ps| == |vs| && AllMatch(ps, vs) && AllClosed(vs, globals)
    ensures NamesOf(AllBinds(ps, vs)) == Set(AllBinders(ps)) && ClosedEnv(AllBinds(ps, vs), globals)
    decreases ps
  {
    if ps != [] {
      var n := |ps| - 1;
      AllBindsNames(ps[..n], vs[..n], globals);
      BindsNames(ps[n], vs[n], globals);
      NamesAppend(AllBinds(ps[..n], vs[..n]), Binds(ps[n], vs[n]));
      SetAppend(AllBinders(ps[..n]), Binders(ps[n]));
    }
  }

  // ---------- the proof ----------

  ghost predicate CanRun(p: Program, env: Env) {
    TamePrim(p) && Accepted(p) && ClosedEnv(env, p.globals)
  }

  lemma {:induction false} EvalSafe(p: Program, fuel: nat, e: Expr, env: Env)
    requires CanRun(p, env) && Scoped(e, p.globals + NamesOf(env))
    ensures Safe(Eval(p, fuel, e, env), p.globals)
    decreases fuel, 2, e
  {
    match e
    case Num(_) =>
    case Ident(_) =>
    case Op(op, args) =>
      AllSafe(p, fuel, args, env);
      var r := EvalAll(p, fuel, args, env);
      if r.Val? { assert GivesClosed(p, op, r.v); }
    case Call(f, args) =>
      EvalSafe(p, fuel, f, env);
      AllSafe(p, fuel, args, env);
      var fv, r := Eval(p, fuel, f, env), EvalAll(p, fuel, args, env);
      if fv.Val? && r.Val? { ApplySafe(p, fuel, fv.v, r.v); }
    case If(c, t, u) =>
      EvalSafe(p, fuel, c, env);
      EvalSafe(p, fuel, t, env);
      EvalSafe(p, fuel, u, env);
    case Match(s, arms) =>
      EvalSafe(p, fuel, s, env);
      var r := Eval(p, fuel, s, env);
      if r.Val? { ArmsSafe(p, fuel, r.v, arms, env); }
    case Block(items) => ItemsSafe(p, fuel, items, Unit, env);
    case Lambda(ps, b) =>
  }

  lemma {:induction false} AllSafe(p: Program, fuel: nat, es: Exprs, env: Env)
    requires CanRun(p, env) && ScopedAll(es, p.globals + NamesOf(env))
    ensures var r := EvalAll(p, fuel, es, env); !r.Unbound? && (r.Val? ==> AllClosed(r.v, p.globals))
    decreases fuel, 2, es
  {
    if es.Cons? {
      EvalSafe(p, fuel, es.head, env);
      AllSafe(p, fuel, es.tail, env);
    }
  }

  /** The scope grows by the binders of a pattern that matched. */
  lemma UnderBinders(p: Program, pat: Pat, v: V, env: Env)
    requires CanRun(p, env) && Matches(pat, v) && Closed(v, p.globals)
    ensures CanRun(p, env + Binds(pat, v))
    ensures p.globals + NamesOf(env + Binds(pat, v)) == p.globals + NamesOf(env) + Set(Binders(pat))
  {
    BindsNames(pat, v, p.globals);
    NamesAppend(env, Binds(pat, v));
    var inner := env + Binds(pat, v);
    forall i | 0 <= i < |inner| ensures Closed(inner[i].value, p.globals) {
      if i >= |env| { assert inner[i] == Binds(pat, v)[i - |env|]; }
    }
  }

  lemma {:induction false} ItemsSafe(p: Program, fuel: nat, items: Items, last: V, env: Env)
    requires CanRun(p, env) && ScopedItems(items, p.globals + NamesOf(env)) && Closed(last, p.globals)
    ensures Safe(EvalItems(p, fuel, items, last, env), p.globals)
    decreases fuel, 2, items
  {
    match items
    case End =>
    case Let(pat, r, rest) =>
      EvalSafe(p, fuel, r, env);
      var o := Eval(p, fuel, r, env);
      if o.Val? && Matches(pat, o.v) {
        UnderBinders(p, pat, o.v, env);
        ItemsSafe(p, fuel, rest, Unit, env + Binds(pat, o.v));
      }
    case Stmt(e, rest) =>
      EvalSafe(p, fuel, e, env);
      var o := Eval(p, fuel, e, env);
      if o.Val? { ItemsSafe(p, fuel, rest, o.v, env); }
  }

  lemma {:induction false} ArmsSafe(p: Program, fuel: nat, v: V, arms: Arms, env: Env)
    requires CanRun(p, env) && ScopedArms(arms, p.globals + NamesOf(env)) && Closed(v, p.globals)
    ensures Safe(EvalArms(p, fuel, v, arms, env), p.globals)
    decreases fuel, 2, arms
  {
    if arms.Arm? {
      ArmsSafe(p, fuel, v, arms.rest, env);
      if Matches(arms.pat, v) {
        var inner := env + Binds(arms.pat, v);
        UnderBinders(p, arms.pat, v, env);
        EvalSafe(p, fuel, arms.body, inner);
        if arms.guard.When? { EvalSafe(p, fuel, arms.guard.cond, inner); }
      }
    }
  }

  lemma {:induction false} ApplySafe(p: Program, fuel: nat, f: V, vs: seq<V>)
    requires CanRun(p, []) && Closed(f, p.globals) && AllClosed(vs, p.globals)
    ensures Safe(Apply(p, fuel, f, vs), p.globals)
    decreases fuel, 1
  {
    match f
    case Global(g) =>
      if g in p.fns { CallSafe(p, fuel, g, vs); } else { assert GivesClosed(p, g, vs); }
    case Closure(ps, b, env) =>
      if |ps| == |vs| && fuel > 0 {
        var inner := env + Zip(ps, vs);
        ZipNames(ps, vs);
        NamesAppend(env, Zip(ps, vs));
        assert p.globals + NamesOf(inner) == p.globals + NamesOf(env) + Set(ps);
        forall i | 0 <= i < |inner| ensures Closed(inner[i].value, p.globals) {
          if i >= |env| { assert inner[i] == Zip(ps, vs)[i - |env|]; }
        }
        EvalSafe(p, fuel - 1, b, inner);
      }
    case _ =>
  }

  lemma {:induction false} CallSafe(p: Program, fuel: nat, f: Name, vs: seq<V>)
    requires CanRun(p, []) && f in p.fns && AllClosed(vs, p.globals)
    ensures Safe(CallFn(p, fuel, p.fns[f], vs), p.globals)
    decreases fuel, 0
  {
    var fn := p.fns[f];
    if |vs| == |fn.params| && fuel > 0 {
      ZipNames(fn.params, vs);
      EvalSafe(p, fuel - 1, fn.body, Zip(fn.params, vs));
    }
  }

  // ---------- what the checker's verdict means ----------

  /** The functions of a program; a later one of the same name counts. */
  function Functions(decls: seq<Decl>): map<Name, Function> {
    if decls == [] then map[] else
      var d := decls[|decls| - 1];
      if d.Fn? then Functions(decls[..|decls| - 1])[d.name := Function(d.params, d.body)] else Functions(decls[..|decls| - 1])
  }

  lemma {:induction false} FromDecl(decls: seq<Decl>, f: Name)
    requires f in Functions(decls)
    ensures exists i :: 0 <= i < |decls| && decls[i] == Fn(f, Functions(decls)[f].params, Functions(decls)[f].body)
  {
    var n := |decls| - 1;
    if decls[n].Fn? && decls[n].name == f {
    } else {
      FromDecl(decls[..n], f);
      var i :| 0 <= i < n && decls[..n][i] == Fn(f, Functions(decls[..n])[f].params, Functions(decls[..n])[f].body);
      assert decls[i] == decls[..n][i];
    }
  }

  /** A program that the checker does not reject never looks up an unbound name: not in a call of
      one of its functions, and not in any closure that it makes, however late that is called. */
  lemma AcceptedNeverUnbound(prelude: seq<Name>, decls: seq<Decl>, prim: (Name, seq<V>) -> Option<V>, fuel: nat, f: Name, vs: seq<V>)
    requires ScopedProgram(prelude, decls) && f in Functions(decls)
    requires var p := Program(Globals(prelude, decls), Functions(decls), prim); TamePrim(p) && AllClosed(vs, p.globals)
    ensures var p := Program(Globals(prelude, decls), Functions(decls), prim);
      Safe(CallFn(p, fuel, p.fns[f], vs), p.globals)
  {
    var p := Program(Globals(prelude, decls), Functions(decls), prim);
    AcceptedFunctions(prelude, decls, p);
    CallSafe(p, fuel, f, vs);
  }

  lemma AcceptedFunctions(prelude: seq<Name>, decls: seq<Decl>, p: Program)
    requires ScopedProgram(prelude, decls) && p.globals == Globals(prelude, decls) && p.fns == Functions(decls)
    ensures Accepted(p)
  {
    forall g <- p.fns ensures Scoped(p.fns[g].body, p.globals + Set(p.fns[g].params)) {
      FromDecl(decls, g);
      var i :| 0 <= i < |decls| && decls[i] == Fn(g, p.fns[g].params, p.fns[g].body);
      assert ScopedDecl(decls[i], p.globals);
    }
  }

  /** The same for the bodies of its tests. */
  lemma AcceptedTests(prelude: seq<Name>, decls: seq<Decl>, prim: (Name, seq<V>) -> Option<V>, fuel: nat, i: nat)
    requires ScopedProgram(prelude, decls) && i < |decls| && decls[i].Test?
    requires TamePrim(Program(Globals(prelude, decls), Functions(decls), prim))
    ensures var p := Program(Globals(prelude, decls), Functions(decls), prim);
      Safe(Eval(p, fuel, decls[i].body, []), p.globals)
  {
    var p := Program(Globals(prelude, decls), Functions(decls), prim);
    AcceptedFunctions(prelude, decls, p);
    assert ScopedDecl(decls[i], p.globals) && p.globals + NamesOf([]) == p.globals;
    EvalSafe(p, fuel, decls[i].body, []);
  }

  /** The verdict is about something: a test of one name looks up an unbound name iff nothing declares
      it, and the checker rejects such a program. */
  lemma RejectedTestFails(prelude: seq<Name>, decls: seq<Decl>, prim: (Name, seq<V>) -> Option<V>, fuel: nat, i: nat, x: Name)
    requires i < |decls| && decls[i] == Test(Ident(x))
    ensures var p := Program(Globals(prelude, decls), Functions(decls), prim);
      Eval(p, fuel, decls[i].body, []) == Unbound(x) <==> x !in p.globals
    ensures x !in Globals(prelude, decls) ==> !ScopedProgram(prelude, decls)
  {
    if x !in Globals(prelude, decls) { assert !ScopedDecl(decls[i], Globals(prelude, decls)); }
  }
}
