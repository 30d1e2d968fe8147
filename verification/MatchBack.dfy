/** Putting what a match binds back into the pattern gives the value that was matched. */
module MatchBack {
  import opened MatchGen
  import opened MatchRun

  /** `v` is the pattern with its variables replaced by what `env` says, and anything for a wildcard. */
  predicate Instance(p: Pat, env: Env, v: Val)
    decreases p
  {
    match p
    case Wild => true
    case Bind(x) => x in env && env[x] == v
    case Lit(l) => v == l
    case Range(lo, hi) => v.I? && lo <= v.i <= hi
    case As(x, q) => x in env && env[x] == v && Instance(q, env, v)
    case RecP(_, subs) => v.Rec? && forall i :: 0 <= i < |subs| && i < |v.fields| ==> Instance(subs[i], env, v.fields[i])
    case CtorP(c, subs) => v.Con? && v.con == c && forall i :: 0 <= i < |subs| && i < |v.args| ==> Instance(subs[i], env, v.args[i])
    case TupP(a, b) => v.Pair? && Instance(a, env, v.fst) && Instance(b, env, v.snd)
    case ListP(fixed, rest) =>
      && v.Items? && |fixed| <= |v.items| && (forall i :: 0 <= i < |fixed| ==> Instance(fixed[i], env, v.items[i]))
      && match rest
         case Exact => |v.items| == |fixed|
         case AnyRest => true
         case Bound(x) => x in env && env[x] == Items(v.items[|fixed|..])
  }

  predicate Within(e: Env, env: Env) {
    forall x <- e :: x in env && env[x] == e[x]
  }

  // ---------- what a match binds makes the value ----------

  lemma WithinParts(a: seq<(Var, Ty)>, e: Env, b: seq<(Var, Ty)>, f: Env, env: Env)
    requires Binding(a, e) && Binding(b, f) && Linear(a + b) && Within(e + f, env)
    ensures Within(e, env) && Within(f, env)
  {
    LinearParts(a, b);
    forall x | x in e ensures x in env && env[x] == e[x] { assert x in e + f && (e + f)[x] == e[x]; }
    forall x | x in f ensures x in env && env[x] == f[x] { assert x in e + f && (e + f)[x] == f[x]; }
  }

  lemma {:induction false} PutBack(t: Ty, p: Pat, v: Val, env: Env)
    requires PatOk(t, p) && HasType(t, v) && Matches(p, v) && Linear(Binders(t, p)) && Within(EnvOf(p, v), env)
    ensures Instance(p, env, v)
    decreases p, 2
  {
    match p
    case As(x, q) =>
      LinearParts([(x, t)], Binders(t, q));
      EnvBinds(t, q, v);
      WithinParts([(x, t)], map[x := v], Binders(t, q), EnvOf(q, v), env);
      PutBack(t, q, v, env);
    case RecP(_, subs) => PutAllBack(FieldTypes(t), subs, v.fields, env);
    case CtorP(_, _) => PutCtorBack(t, p, v, env);
    case TupP(_, _) => PutPairBack(t, p, v, env);
    case ListP(_, _) => PutListBack(t, p, v, env);
    case _ =>
  }

  lemma {:induction false} PutPairBack(t: Ty, p: Pat, v: Val, env: Env)
    requires p.TupP? && PatOk(t, p) && HasType(t, v) && Matches(p, v) && Linear(Binders(t, p)) && Within(EnvOf(p, v), env)
    ensures Instance(p, env, v)
    decreases p, 1
  {
    var TupP(a, b) := p;
    LinearParts(Binders(t.fst, a), Binders(t.snd, b));
    EnvBinds(t.fst, a, v.fst);
    EnvBinds(t.snd, b, v.snd);
    WithinParts(Binders(t.fst, a), EnvOf(a, v.fst), Binders(t.snd, b), EnvOf(b, v.snd), env);
    PutBack(t.fst, a, v.fst, env);
    PutBack(t.snd, b, v.snd, env);
  }

  lemma {:induction false} PutCtorBack(t: Ty, p: Pat, v: Val, env: Env)
    requires p.CtorP? && PatOk(t, p) && HasType(t, v) && Matches(p, v) && Linear(Binders(t, p)) && Within(EnvOf(p, v), env)
    ensures Instance(p, env, v)
    decreases p, 1
  {
    var ts :| Builds(t, p.con, ts) && |ts| == |p.subs| && forall i :: 0 <= i < |p.subs| ==> PatOk(ts[i], p.subs[i]);
    var us :| Builds(t, v.con, us) && |us| == |v.args| && forall i :: 0 <= i < |v.args| ==> HasType(us[i], v.args[i]);
    OneCtor(t, p.con, ts, us);
    BuildsArgs(t, p.con, ts);
    PutAllBack(ts, p.subs, v.args, env);
  }

  lemma {:induction false} PutListBack(t: Ty, p: Pat, v: Val, env: Env)
    requires p.ListP? && PatOk(t, p) && HasType(t, v) && Matches(p, v) && Linear(Binders(t, p)) && Within(EnvOf(p, v), env)
    ensures Instance(p, env, v)
    decreases p, 1
  {
    var ts, n := seq(|p.fixed|, i => t.of), |p.fixed|;
    var last, f := RestBinds(t, p.rest, v.items[n..]);
    LinearParts(AllBinders(ts, p.fixed), last);
    AllEnvPrefix(p.fixed, v.items);
    assert p.fixed[..n] == p.fixed;
    AllEnvBinds(ts, p.fixed, v.items[..n]);
    WithinParts(AllBinders(ts, p.fixed), AllEnv(p.fixed, v.items[..n]), last, f, env);
    PutAllBack(ts, p.fixed, v.items[..n], env);
    forall i | 0 <= i < n ensures Instance(p.fixed[i], env, v.items[i]) { assert v.items[..n][i] == v.items[i]; }
    if p.rest.Bound? { assert p.rest.x in f; }
  }

  lemma InstancesAndOne(ps: seq<Pat>, vs: seq<Val>, env: Env)
    requires |ps| == |vs| > 0
    requires var n := |ps| - 1; Instance(ps[n], env, vs[n]) && forall i :: 0 <= i < n ==> Instance(ps[..n][i], env, vs[..n][i])
    ensures forall i :: 0 <= i < |ps| ==> Instance(ps[i], env, vs[i])
  {
    var n := |ps| - 1;
    forall i | 0 <= i < |ps| ensures Instance(ps[i], env, vs[i]) {
      if i < n { assert ps[..n][i] == ps[i] && vs[..n][i] == vs[i]; }
    }
  }

  lemma {:induction false} PutAllBack(ts: seq<Ty>, ps: seq<Pat>, vs: seq<Val>, env: Env)
    requires |ts| == |ps| == |vs| && Linear(AllBinders(ts, ps))
    requires forall i :: 0 <= i < |ps| ==> PatOk(ts[i], ps[i]) && HasType(ts[i], vs[i]) && Matches(ps[i], vs[i])
    requires Within(AllEnv(ps, vs), env)
    ensures forall i :: 0 <= i < |ps| ==> Instance(ps[i], env, vs[i])
    decreases ps
  {
    if ps != [] {
      var n := |ps| - 1;
      LinearParts(AllBinders(ts[..n], ps[..n]), Binders(ts[n], ps[n]));
      AllEnvBinds(ts[..n], ps[..n], vs[..n]);
      EnvBinds(ts[n], ps[n], vs[n]);
      WithinParts(AllBinders(ts[..n], ps[..n]), AllEnv(ps[..n], vs[..n]), Binders(ts[n], ps[n]), EnvOf(ps[n], vs[n]), env);
      PutAllBack(ts[..n], ps[..n], vs[..n], env);
      PutBack(ts[n], ps[n], vs[n], env);
      InstancesAndOne(ps, vs, env);
    }
  }

  // ---------- and nothing else does ----------

  lemma WithinBoth(e: Env, f: Env, env: Env)
    requires Within(e, env) && Within(f, env)
    ensures Within(e + f, env)
  {
    forall x | x in e + f ensures x in env && env[x] == (e + f)[x] { if x in f { } else { assert x in e; } }
  }

  lemma {:induction false} Forced(p: Pat, v: Val, env: Env)
    requires Instance(p, env, v)
    ensures Matches(p, v) && Within(EnvOf(p, v), env)
    decreases p, 1
  {
    match p
    case As(x, q) =>
      Forced(q, v, env);
      WithinBoth(map[x := v], EnvOf(q, v), env);
    case RecP(_, subs) => AllForced(subs, v.fields, env);
    case CtorP(_, subs) => AllForced(subs, v.args, env);
    case TupP(a, b) =>
      Forced(a, v.fst, env);
      Forced(b, v.snd, env);
      WithinBoth(EnvOf(a, v.fst), EnvOf(b, v.snd), env);
    case ListP(fixed, rest) =>
      AllForced(fixed, v.items, env);
      WithinBoth(AllEnv(fixed, v.items), if rest.Bound? then map[rest.x := Items(v.items[|fixed|..])] else map[], env);
    case _ =>
  }

  lemma {:induction false} AllForced(ps: seq<Pat>, vs: seq<Val>, env: Env)
    requires forall i :: 0 <= i < |ps| && i < |vs| ==> Instance(ps[i], env, vs[i])
    ensures forall i :: 0 <= i < |ps| && i < |vs| ==> Matches(ps[i], vs[i])
    ensures Within(AllEnv(ps, vs), env)
    decreases ps
  {
    forall i | 0 <= i < |ps| && i < |vs| ensures Matches(ps[i], vs[i]) { Forced(ps[i], vs[i], env); }
    var n := Shorter(ps, vs);
    if n > 0 {
      AllForced(ps[..n - 1], vs[..n - 1], env);
      Forced(ps[n - 1], vs[n - 1], env);
      WithinBoth(AllEnv(ps[..n - 1], vs[..n - 1]), EnvOf(ps[n - 1], vs[n - 1]), env);
    }
  }

  /** A pattern matches a value iff some environment makes it the value. */
  lemma MatchedIsInstance(t: Ty, p: Pat, v: Val)
    requires PatOk(t, p) && HasType(t, v) && Linear(Binders(t, p))
    ensures Matches(p, v) <==> exists env :: Instance(p, env, v)
  {
    if Matches(p, v) {
      PutBack(t, p, v, EnvOf(p, v));
      assert Instance(p, EnvOf(p, v), v);
    } else {
      forall env ensures !Instance(p, env, v) {
        if Instance(p, env, v) { Forced(p, v, env); }
      }
    }
  }

  /** What the match binds is the least that does, whatever else the environment has. */
  lemma LeastInstance(t: Ty, p: Pat, v: Val, env: Env)
    requires PatOk(t, p) && HasType(t, v) && Linear(Binders(t, p)) && Matches(p, v)
    ensures Instance(p, env, v) <==> Within(EnvOf(p, v), env)
  {
    if Within(EnvOf(p, v), env) { PutBack(t, p, v, env); }
    if Instance(p, env, v) { Forced(p, v, env); }
  }

  // ---------- the heads of the redundancy rule ----------

  /** The pattern under its names. */
  function Named(p: Pat): Pat {
    if p.As? then Named(p.of) else p
  }

  predicate TakesAll(p: Pat) {
    Named(p).Wild? || Named(p).Bind?
  }

  lemma {:induction false} CatchAllIsNamed(p: Pat)
    ensures CatchAll(p) <==> TakesAll(p)
  {
    if p.As? { CatchAllIsNamed(p.of); }
  }

  /** Which head a pattern has: a constructor over patterns that take everything, a pair of two such,
      a literal that is not a real, and everything for a name or a wildcard. */
  predicate HasHead(p: Pat, h: Head) {
    match h
    case OfCtor(c) => Named(p).CtorP? && Named(p).con == c && forall i :: 0 <= i < |Named(p).subs| ==> TakesAll(Named(p).subs[i])
    case OfPair => Named(p).TupP? && TakesAll(Named(p).fst) && TakesAll(Named(p).snd)
    case OfLit(v) => Named(p) == Lit(v) && !v.R?
    case Star => TakesAll(p)
    case NoHead => false
  }

  lemma {:induction false} HeadsExactly(p: Pat, h: Head)
    ensures ArmHead(p) == h != NoHead <==> HasHead(p, h)
    decreases p
  {
    match p
    case As(_, q) => HeadsExactly(q, h);
    case CtorP(_, subs) => forall i | 0 <= i < |subs| ensures CatchAll(subs[i]) <==> TakesAll(subs[i]) { CatchAllIsNamed(subs[i]); }
    case TupP(a, b) => CatchAllIsNamed(a); CatchAllIsNamed(b);
    case _ =>
  }
}
