/** What a pattern binds, and the matching of a value against it. */
module MatchRun {
  import opened MatchGen

  // ---------- binders ----------

  function ArgTypes(cs: seq<Ctor>, c: Name): seq<Ty> {
    if cs == [] then [] else if cs[0].name == c then cs[0].args else ArgTypes(cs[1..], c)
  }

  lemma BuildsArgs(t: Ty, c: Name, ts: seq<Ty>)
    requires Builds(t, c, ts)
    ensures ArgTypes(CtorsOf(t), c) == ts
  {
    var cs := CtorsOf(t);
    var k :| 0 <= k < |cs| && cs[k] == Ctor(c, ts);
    FoundAt(t, cs, k);
  }

  lemma {:induction false} FoundAt(t: Ty, cs: seq<Ctor>, k: nat)
    requires k < |cs| && forall i :: 0 <= i < |cs| && cs[i].name == cs[k].name ==> cs[i].args == cs[k].args
    ensures ArgTypes(cs, cs[k].name) == cs[k].args
  {
    if cs[0].name != cs[k].name { FoundAt(t, cs[1..], k - 1); }
  }

  /** The binders of a pattern with their types, in source order. */
  function Binders(t: Ty, p: Pat): seq<(Var, Ty)>
    decreases p
  {
    match p
    case Bind(x) => [(x, t)]
    case As(x, q) => [(x, t)] + Binders(t, q)
    case RecP(_, subs) => if IsRecord(t) then AllBinders(FieldTypes(t), subs) else []
    case CtorP(c, subs) => if IsSum(t) then AllBinders(ArgTypes(CtorsOf(t), c), subs) else []
    case TupP(a, b) => if t.Tup? then Binders(t.fst, a) + Binders(t.snd, b) else []
    case ListP(fixed, rest) =>
      if !t.ListT? then [] else
        AllBinders(seq(|fixed|, i => t.of), fixed) + if rest.Bound? then [(rest.x, t)] else []
    case _ => []
  }

  function AllBinders(ts: seq<Ty>, ps: seq<Pat>): seq<(Var, Ty)>
    decreases ps
  {
    if ps == [] || |ts| != |ps| then [] else
      AllBinders(ts[..|ts| - 1], ps[..|ps| - 1]) + Binders(ts[|ts| - 1], ps[|ps| - 1])
  }

  type Env = map<Var, Val>

  /** What a match that succeeds binds. */
  function EnvOf(p: Pat, v: Val): Env
    requires Matches(p, v)
    decreases p
  {
    match p
    case Bind(x) => map[x := v]
    case As(x, q) => map[x := v] + EnvOf(q, v)
    case RecP(_, subs) => AllEnv(subs, v.fields)
    case CtorP(_, subs) => AllEnv(subs, v.args)
    case TupP(a, b) => EnvOf(a, v.fst) + EnvOf(b, v.snd)
    case ListP(fixed, rest) => AllEnv(fixed, v.items) + if rest.Bound? then map[rest.x := Items(v.items[|fixed|..])] else map[]
    case _ => map[]
  }

  function Shorter(ps: seq<Pat>, vs: seq<Val>): nat {
    if |ps| <= |vs| then |ps| else |vs|
  }

  function AllEnv(ps: seq<Pat>, vs: seq<Val>): Env
    requires forall i :: 0 <= i < |ps| && i < |vs| ==> Matches(ps[i], vs[i])
    decreases ps
  {
    var n := Shorter(ps, vs);
    if n == 0 then map[] else AllEnv(ps[..n - 1], vs[..n - 1]) + EnvOf(ps[n - 1], vs[n - 1])
  }

  function Vars(bs: seq<(Var, Ty)>): set<Var> {
    set b | b in bs :: b.0
  }

  predicate Linear(bs: seq<(Var, Ty)>) {
    forall i, j :: 0 <= i < j < |bs| ==> bs[i].0 != bs[j].0
  }

  /** The environment binds exactly the binders, each to a value of its type. */
  ghost predicate Binding(bs: seq<(Var, Ty)>, env: Env) {
    env.Keys == Vars(bs) && forall b <- bs :: HasType(b.1, env[b.0])
  }

  lemma VarsAppend(a: seq<(Var, Ty)>, b: seq<(Var, Ty)>)
    ensures Vars(a + b) == Vars(a) + Vars(b)
  {
  }

  lemma LinearParts(a: seq<(Var, Ty)>, b: seq<(Var, Ty)>)
    requires Linear(a + b)
    ensures Linear(a) && Linear(b) && Vars(a) !! Vars(b)
  {
    forall i, j | 0 <= i < j < |a| ensures a[i].0 != a[j].0 { assert (a + b)[i] == a[i] && (a + b)[j] == a[j]; }
    forall i, j | 0 <= i < j < |b| ensures b[i].0 != b[j].0 { assert (a + b)[|a| + i] == b[i] && (a + b)[|a| + j] == b[j]; }
    forall x | x in Vars(a) ensures x !in Vars(b) {
      var i :| 0 <= i < |a| && a[i].0 == x;
      forall j | 0 <= j < |b| ensures b[j].0 != x { assert (a + b)[i] == a[i] && (a + b)[|a| + j] == b[j]; }
    }
  }

  lemma LinearBoth(a: seq<(Var, Ty)>, b: seq<(Var, Ty)>)
    requires Linear(a) && Linear(b) && Vars(a) !! Vars(b)
    ensures Linear(a + b)
  {
    forall i, j | 0 <= i < j < |a + b| ensures (a + b)[i].0 != (a + b)[j].0 {
      if i < |a| <= j { assert a[i].0 in Vars(a) && b[j - |a|].0 in Vars(b); }
    }
  }

  lemma BindingBoth(a: seq<(Var, Ty)>, e: Env, b: seq<(Var, Ty)>, f: Env)
    requires Binding(a, e) && Binding(b, f) && Linear(a + b)
    ensures Binding(a + b, e + f)
  {
    VarsAppend(a, b);
    LinearParts(a, b);
    forall c <- a + b ensures HasType(c.1, (e + f)[c.0]) {
      if c in a { assert c.0 in Vars(a); } else { assert c in b && c.0 in Vars(b); }
    }
  }

  lemma {:induction false} EnvBinds(t: Ty, p: Pat, v: Val)
    requires PatOk(t, p) && HasType(t, v) && Matches(p, v) && Linear(Binders(t, p))
    ensures Binding(Binders(t, p), EnvOf(p, v))
    decreases p
  {
    match p
    case As(x, q) =>
      LinearParts([(x, t)], Binders(t, q));
      EnvBinds(t, q, v);
      BindingBoth([(x, t)], map[x := v], Binders(t, q), EnvOf(q, v));
    case RecP(_, subs) => AllEnvBinds(FieldTypes(t), subs, v.fields);
    case CtorP(c, subs) => CtorEnvBinds(t, p, v);
    case TupP(a, b) =>
      LinearParts(Binders(t.fst, a), Binders(t.snd, b));
      EnvBinds(t.fst, a, v.fst);
      EnvBinds(t.snd, b, v.snd);
      BindingBoth(Binders(t.fst, a), EnvOf(a, v.fst), Binders(t.snd, b), EnvOf(b, v.snd));
    case ListP(_, _) => ListEnvBinds(t, p, v);
    case _ =>
  }

  lemma CtorEnvBinds(t: Ty, p: Pat, v: Val)
    requires p.CtorP? && PatOk(t, p) && HasType(t, v) && Matches(p, v) && Linear(Binders(t, p))
    ensures Binding(Binders(t, p), EnvOf(p, v))
    decreases p, 0
  {
    var ts :| Builds(t, p.con, ts) && |ts| == |p.subs| && forall i :: 0 <= i < |p.subs| ==> PatOk(ts[i], p.subs[i]);
    var us :| Builds(t, v.con, us) && |us| == |v.args| && forall i :: 0 <= i < |v.args| ==> HasType(us[i], v.args[i]);
    OneCtor(t, p.con, ts, us);
    BuildsArgs(t, p.con, ts);
    AllEnvBinds(ts, p.subs, v.args);
  }

  lemma ListEnvBinds(t: Ty, p: Pat, v: Val)
    requires p.ListP? && PatOk(t, p) && HasType(t, v) && Matches(p, v) && Linear(Binders(t, p))
    ensures Binding(Binders(t, p), EnvOf(p, v))
    decreases p, 0
  {
    var ts, n := seq(|p.fixed|, i => t.of), |p.fixed|;
    var last, f := RestBinds(t, p.rest, v.items[n..]);
    LinearParts(AllBinders(ts, p.fixed), last);
    AllEnvPrefix(p.fixed, v.items);
    assert p.fixed[..n] == p.fixed;
    AllEnvBinds(ts, p.fixed, v.items[..n]);
    BindingBoth(AllBinders(ts, p.fixed), AllEnv(p.fixed, v.items[..n]), last, f);
  }

  /** The rest of a list, where it is bound. */
  lemma RestBinds(t: Ty, rest: Rest, vs: seq<Val>) returns (last: seq<(Var, Ty)>, f: Env)
    requires t.ListT? && forall i :: 0 <= i < |vs| ==> HasType(t.of, vs[i])
    ensures last == (if rest.Bound? then [(rest.x, t)] else []) && f == (if rest.Bound? then map[rest.x := Items(vs)] else map[])
    ensures Binding(last, f)
  {
    last := if rest.Bound? then [(rest.x, t)] else [];
    f := if rest.Bound? then map[rest.x := Items(vs)] else map[];
    if rest.Bound? { assert last[0].0 in Vars(last); }
  }

  lemma AllEnvPrefix(ps: seq<Pat>, vs: seq<Val>)
    requires forall i :: 0 <= i < |ps| && i < |vs| ==> Matches(ps[i], vs[i])
    ensures var n := Shorter(ps, vs); AllEnv(ps, vs) == AllEnv(ps[..n], vs[..n])
  {
    var n := Shorter(ps, vs);
    if n > 0 { assert vs[..n][..n - 1] == vs[..n - 1] && ps[..n][..n - 1] == ps[..n - 1]; }
  }

  lemma {:induction false} AllEnvBinds(ts: seq<Ty>, ps: seq<Pat>, vs: seq<Val>)
    requires |ts| == |ps| == |vs| && Linear(AllBinders(ts, ps))
    requires forall i :: 0 <= i < |ps| ==> PatOk(ts[i], ps[i]) && HasType(ts[i], vs[i]) && Matches(ps[i], vs[i])
    ensures Binding(AllBinders(ts, ps), AllEnv(ps, vs))
    decreases ps
  {
    if ps != [] {
      var n := |ps| - 1;
      LinearParts(AllBinders(ts[..n], ps[..n]), Binders(ts[n], ps[n]));
      AllEnvBinds(ts[..n], ps[..n], vs[..n]);
      EnvBinds(ts[n], ps[n], vs[n]);
      BindingBoth(AllBinders(ts[..n], ps[..n]), AllEnv(ps[..n], vs[..n]), Binders(ts[n], ps[n]), EnvOf(ps[n], vs[n]));
    }
  }

  // ---------- matching ----------

  /** Fills `env` on the way; it is of use only when the match succeeds. */
  method MatchPat(p: Pat, v: Val, env: Env) returns (ok: bool, env': Env)
    ensures ok <==> Matches(p, v)
    ensures ok ==> env' == env + EnvOf(p, v)
    decreases p, 1
  {
    env' := env;
    match p
    case Wild => ok := true;
    case Bind(x) => env' := env[x := v]; ok := true;
    case Lit(l) => ok := v == l;
    case Range(lo, hi) => ok := v.I? && lo <= v.i <= hi;
    case As(x, q) =>
      ok, env' := MatchPat(q, v, env[x := v]);
      if ok { assert env[x := v] == env + map[x := v]; MergeThree(env, map[x := v], EnvOf(q, v)); }
    case RecP(_, subs) =>
      if !v.Rec? { return false, env; }
      ok, env' := MatchAll(subs, v.fields, env);
    case CtorP(c, subs) =>
      if !v.Con? || v.con != c { return false, env; }
      ok, env' := MatchAll(subs, v.args, env);
    case TupP(a, b) =>
      if !v.Pair? { return false, env; }
      ok, env' := MatchPair(a, b, v, env);
    case ListP(_, _) => ok, env' := MatchList(p, v, env);
  }

  lemma MergeThree(e: Env, f: Env, g: Env)
    ensures (e + f) + g == e + (f + g)
  {
  }

  method MatchPair(a: Pat, b: Pat, v: Val, env: Env) returns (ok: bool, env': Env)
    requires v.Pair?
    ensures ok <==> Matches(TupP(a, b), v)
    ensures ok ==> env' == env + EnvOf(TupP(a, b), v)
    decreases TupP(a, b), 0
  {
    ok, env' := MatchPat(a, v.fst, env);
    if ok {
      ok, env' := MatchPat(b, v.snd, env');
      if ok { MergeThree(env, EnvOf(a, v.fst), EnvOf(b, v.snd)); }
    }
  }

  method MatchList(p: Pat, v: Val, env: Env) returns (ok: bool, env': Env)
    requires p.ListP?
    ensures ok <==> Matches(p, v)
    ensures ok ==> env' == env + EnvOf(p, v)
    decreases p, 0
  {
    var fixed, rest := p.fixed, p.rest;
    if !v.Items? || |v.items| < |fixed| || (rest.Exact? && |v.items| != |fixed|) { return false, env; }
    ok, env' := MatchAll(fixed, v.items, env);
    if ok && rest.Bound? {
      var last := map[rest.x := Items(v.items[|fixed|..])];
      MergeThree(env, AllEnv(fixed, v.items), last);
      env' := env' + last;
    } else if ok {
      assert AllEnv(fixed, v.items) + map[] == AllEnv(fixed, v.items);
    }
  }

  method MatchAll(ps: seq<Pat>, vs: seq<Val>, env: Env) returns (ok: bool, env': Env)
    ensures ok <==> forall i :: 0 <= i < |ps| && i < |vs| ==> Matches(ps[i], vs[i])
    ensures ok ==> env' == env + AllEnv(ps, vs)
    decreases ps
  {
    env' := env;
    var n := 0;
    while n < |ps| && n < |vs|
      invariant n <= |ps| && n <= |vs| && forall i :: 0 <= i < n ==> Matches(ps[i], vs[i])
      invariant env' == env + AllEnv(ps[..n], vs[..n])
    {
      ok, env' := MatchPat(ps[n], vs[n], env');
      if !ok { return; }
      assert ps[..n + 1][..n] == ps[..n] && vs[..n + 1][..n] == vs[..n];
      assert AllEnv(ps[..n + 1], vs[..n + 1]) == AllEnv(ps[..n], vs[..n]) + EnvOf(ps[n], vs[n]);
      MergeThree(env, AllEnv(ps[..n], vs[..n]), EnvOf(ps[n], vs[n]));
      n := n + 1;
    }
    ok := true;
    AllEnvPrefix(ps, vs);
  }
}
