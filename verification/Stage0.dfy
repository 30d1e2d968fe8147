/** The programs that stage 0 compiles, and what they mean. */
module Stage0 {

  type Name = string

  /** The identity of a declaration. Lambda parameters and captures have none. */
  type Id = int
  const NoId: Id := -1

  datatype Decl = Decl(name: Name, id: Id)

  datatype Pat =
    | Wild
    | Bind(decl: Decl)
    | PLit(value: int)
    | Con(con: Name, args: seq<Pat>)

  /** In a block, a `let` or a statement is followed by the rest of the block. `tail` is the flag
      that marks a call as a self-tail-call. */
  datatype Expr =
    | Lit(value: int)
    | Var(name: Name)
    | Prim(op: Name, args: Args)
    | Call(callee: Name, args: Args, tail: bool)
    | If(cond: Expr, yes: Expr, no: Expr)
    | Match(scrutinee: Expr, arms: Arms)
    | Let(pat: Pat, rhs: Expr, body: Expr)
    | Then(first: Expr, body: Expr)
    | Lambda(params: seq<Name>, body: Expr)
    | Block(body: Expr)

  datatype Args = NoArgs | Arg(head: Expr, rest: Args)
  datatype Guard = NoGuard | When(cond: Expr)
  datatype Arms = NoArms | Arm(pat: Pat, guard: Guard, body: Expr, rest: Arms)

  function Length(es: Args): nat {
    if es.NoArgs? then 0 else 1 + Length(es.rest)
  }

  /** A local variable in scope. The innermost is the last. */
  datatype Bound = Bound(decl: Decl, v: V)
  type Env = seq<Bound>

  datatype V =
    | Int(i: int)
    | Data(con: Name, args: seq<V>)
    | FunRef(name: Name)
    | Closure(params: seq<Name>, body: Expr, env: Env)

  const Unit := Data("()", [])

  predicate Truthy(v: V) {
    v == Data("true", [])
  }

  // ---------- scopes ----------

  function Innermost(scope: seq<Decl>, x: Name): (k: int)
    ensures -1 <= k < |scope|
    ensures k >= 0 ==> scope[k].name == x
    ensures forall j :: k < j < |scope| ==> scope[j].name != x
  {
    if scope == [] then -1
    else if scope[|scope| - 1].name == x then |scope| - 1
    else Innermost(scope[..|scope| - 1], x)
  }

  function Decls(env: Env): (ds: seq<Decl>)
    ensures |ds| == |env| && forall k :: 0 <= k < |env| ==> ds[k] == env[k].decl
  {
    seq(|env|, k requires 0 <= k < |env| => env[k].decl)
  }

  function Shadowed(params: seq<Name>): (ds: seq<Decl>)
    ensures |ds| == |params| && forall k :: 0 <= k < |params| ==> ds[k] == Decl(params[k], NoId)
  {
    seq(|params|, k requires 0 <= k < |params| => Decl(params[k], NoId))
  }

  function PatDecls(p: Pat): seq<Decl> {
    match p
    case Bind(d) => [d]
    case Con(_, args) => PatsDecls(args)
    case _ => []
  }

  function PatsDecls(ps: seq<Pat>): seq<Decl> {
    if ps == [] then [] else PatDecls(ps[0]) + PatsDecls(ps[1..])
  }

  /** Whether an occurrence of `x` is a use of the declaration `id`. */
  function Hit(id: Id, x: Name, scope: seq<Decl>): nat {
    var k := Innermost(scope, x);
    if k >= 0 && scope[k].id == id then 1 else 0
  }

  /** How often `e` mentions the declaration `id`. */
  function Uses(id: Id, e: Expr, scope: seq<Decl>): nat
    decreases e
  {
    match e
    case Lit(_) => 0
    case Var(x) => Hit(id, x, scope)
    case Prim(_, args) => ArgsUses(id, args, scope)
    case Call(f, args, _) => Hit(id, f, scope) + ArgsUses(id, args, scope)
    case If(c, t, u) => Uses(id, c, scope) + Uses(id, t, scope) + Uses(id, u, scope)
    case Match(s, arms) => Uses(id, s, scope) + ArmsUses(id, arms, scope)
    case Let(p, r, b) => Uses(id, r, scope) + Uses(id, b, scope + PatDecls(p))
    case Then(f, b) => Uses(id, f, scope) + Uses(id, b, scope)
    case Lambda(ps, b) => Uses(id, b, scope + Shadowed(ps))
    case Block(b) => Uses(id, b, scope)
  }

  function ArgsUses(id: Id, es: Args, scope: seq<Decl>): nat
    decreases es
  {
    if es.NoArgs? then 0 else Uses(id, es.head, scope) + ArgsUses(id, es.rest, scope)
  }

  function GuardUses(id: Id, g: Guard, scope: seq<Decl>): nat
    decreases g
  {
    if g.NoGuard? then 0 else Uses(id, g.cond, scope)
  }

  function ArmsUses(id: Id, arms: Arms, scope: seq<Decl>): nat
    decreases arms
  {
    if arms.NoArms? then 0 else
      GuardUses(id, arms.guard, scope + PatDecls(arms.pat)) + Uses(id, arms.body, scope + PatDecls(arms.pat))
      + ArmsUses(id, arms.rest, scope)
  }

  // ---------- patterns ----------

  predicate Matches(p: Pat, v: V) {
    match p
    case PLit(i) => v == Int(i)
    case Con(c, ps) => v.Data? && v.con == c && |v.args| == |ps| && AllMatch(ps, v.args)
    case _ => true
  }

  predicate AllMatch(ps: seq<Pat>, vs: seq<V>)
    requires |ps| == |vs|
  {
    ps == [] || (Matches(ps[0], vs[0]) && AllMatch(ps[1..], vs[1..]))
  }

  function Binds(p: Pat, v: V): (env: Env)
    requires Matches(p, v)
    ensures Decls(env) == PatDecls(p)
  {
    match p
    case Bind(d) => [Bound(d, v)]
    case Con(_, ps) => AllBinds(ps, v.args)
    case _ => []
  }

  function AllBinds(ps: seq<Pat>, vs: seq<V>): (env: Env)
    requires |ps| == |vs| && AllMatch(ps, vs)
    ensures Decls(env) == PatsDecls(ps)
  {
    if ps == [] then [] else Binds(ps[0], vs[0]) + AllBinds(ps[1..], vs[1..])
  }

  // ---------- evaluation ----------

  datatype Fn = Fn(params: seq<Decl>, body: Expr)

  datatype Option<T> = None | Some(value: T)

  /** `prim` are the operators, constructors and runtime functions. */
  datatype Program = Program(fns: map<Name, Fn>, prim: (Name, seq<V>) -> Option<V>)

  /** A `let` whose pattern does not match has no meaning: it is for the type checker to exclude, and
      stage 0 has none. */
  datatype Res<T> = Val(v: T) | Panic | Timeout | Mismatch

  function Zip(ds: seq<Decl>, vs: seq<V>): (env: Env)
    requires |ds| == |vs|
    ensures Decls(env) == ds && forall k :: 0 <= k < |env| ==> env[k].v == vs[k]
  {
    seq(|ds|, k requires 0 <= k < |ds| => Bound(ds[k], vs[k]))
  }

  /** What a lambda captures: the variables that its body mentions. They and its parameters have
      no identity in the function that is made of it. */
  function Captured(ps: seq<Name>, b: Expr, env: Env, all: seq<Decl>): Env {
    if env == [] then [] else
      Captured(ps, b, env[..|env| - 1], all)
      + if Uses(env[|env| - 1].decl.id, b, all + Shadowed(ps)) > 0
        then [Bound(Decl(env[|env| - 1].decl.name, NoId), env[|env| - 1].v)] else []
  }

  /** `fuel` bounds the depth of calls. */
  function Eval(p: Program, fuel: nat, e: Expr, env: Env): Res<V>
    decreases fuel, 2, e
  {
    match e
    case Lit(i) => Val(Int(i))
    case Var(x) => ReadVar(p, x, env)
    case Prim(op, args) =>
      (match EvalArgs(p, fuel, args, env)
       case Val(vs) => Operate(p, op, vs)
       case Panic => Panic
       case Timeout => Timeout
       case Mismatch => Mismatch)
    case Call(f, args, _) =>
      (match if Innermost(Decls(env), f) >= 0 then ReadVar(p, f, env) else Val(FunRef(f))
       case Val(fv) =>
         (match EvalArgs(p, fuel, args, env)
          case Val(vs) => Apply(p, fuel, fv, vs)
          case Panic => Panic
          case Timeout => Timeout
          case Mismatch => Mismatch)
       case Panic => Panic
       case Timeout => Timeout
       case Mismatch => Mismatch)
    case If(c, t, u) =>
      (match Eval(p, fuel, c, env)
       case Val(v) => if Truthy(v) then Eval(p, fuel, t, env) else Eval(p, fuel, u, env)
       case Panic => Panic
       case Timeout => Timeout
       case Mismatch => Mismatch)
    case Match(s, arms) =>
      (match Eval(p, fuel, s, env)
       case Val(v) => EvalArms(p, fuel, v, arms, env)
       case Panic => Panic
       case Timeout => Timeout
       case Mismatch => Mismatch)
    case Let(pat, r, b) =>
      (match Eval(p, fuel, r, env)
       case Val(v) => if Matches(pat, v) then Eval(p, fuel, b, env + Binds(pat, v)) else Mismatch
       case Panic => Panic
       case Timeout => Timeout
       case Mismatch => Mismatch)
    case Then(f, b) =>
      (match Eval(p, fuel, f, env)
       case Val(_) => Eval(p, fuel, b, env)
       case Panic => Panic
       case Timeout => Timeout
       case Mismatch => Mismatch)
    case Lambda(ps, b) => Val(Closure(ps, b, Captured(ps, b, env, Decls(env))))
    case Block(b) => Eval(p, fuel, b, env)
  }

  function ReadVar(p: Program, x: Name, env: Env): Res<V> {
    var k := Innermost(Decls(env), x);
    if k >= 0 then Val(env[k].v) else if x in p.fns then Val(FunRef(x)) else Panic
  }

  function Operate(p: Program, op: Name, vs: seq<V>): Res<V> {
    match p.prim(op, vs)
    case Some(v) => Val(v)
    case None => Panic
  }

  function EvalArgs(p: Program, fuel: nat, es: Args, env: Env): Res<seq<V>>
    decreases fuel, 2, es
  {
    if es.NoArgs? then Val([]) else
      match Eval(p, fuel, es.head, env)
      case Panic => Panic
      case Timeout => Timeout
      case Mismatch => Mismatch
      case Val(v) =>
        match EvalArgs(p, fuel, es.rest, env)
        case Val(vs) => Val([v] + vs)
        case Panic => Panic
        case Timeout => Timeout
        case Mismatch => Mismatch
  }

  /** The first arm whose pattern matches and whose guard holds. */
  function EvalArms(p: Program, fuel: nat, v: V, arms: Arms, env: Env): Res<V>
    decreases fuel, 2, arms
  {
    if arms.NoArms? then Panic
    else if !Matches(arms.pat, v) then EvalArms(p, fuel, v, arms.rest, env)
    else
      var inner := env + Binds(arms.pat, v);
      match arms.guard
      case NoGuard => Eval(p, fuel, arms.body, inner)
      case When(c) =>
        match Eval(p, fuel, c, inner)
        case Val(g) => if Truthy(g) then Eval(p, fuel, arms.body, inner) else EvalArms(p, fuel, v, arms.rest, env)
        case Panic => Panic
        case Timeout => Timeout
        case Mismatch => Mismatch
  }

  function Apply(p: Program, fuel: nat, f: V, vs: seq<V>): Res<V>
    decreases fuel, 1
  {
    match f
    case FunRef(g) => if g in p.fns then CallFn(p, fuel, p.fns[g], vs) else Panic
    case Closure(ps, b, env) =>
      if |ps| != |vs| then Panic
      else if fuel == 0 then Timeout
      else Eval(p, fuel - 1, b, Zip(Shadowed(ps), vs) + env)
    case _ => Panic
  }

  function CallFn(p: Program, fuel: nat, fn: Fn, vs: seq<V>): Res<V>
    decreases fuel, 0
  {
    if |vs| != |fn.params| then Panic
    else if fuel == 0 then Timeout
    else Eval(p, fuel - 1, fn.body, Zip(fn.params, vs))
  }
}
