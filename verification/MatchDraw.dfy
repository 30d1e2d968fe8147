/** Drawing values, patterns and whole matches. */
module MatchDraw {
  import opened MatchGen
  import opened MatchRun

  // ---------- values ----------

  lemma ArgsRank(t: Ty, c: Ctor, i: nat)
    requires IsSum(t) && c in CtorsOf(t) && i < |c.args|
    ensures Rank(c.args[i]) < Rank(t)
  {
  }

  /** A value of `t`. */
  method RandVal(t: Ty) returns (v: Val)
    ensures HasType(t, v)
    decreases Rank(t), 1
  {
    if t.IntT? {
      var i :| i == 0 || i == 1 || i == 2 || i == 5;
      v := I(i);
    } else if t.BoolT? {
      var b: bool := *;
      v := B(b);
    } else if t.RealT? {
      var r: real :| r == 0.0 || r == 1.5 || r == 2.5;
      v := R(r);
    } else if IsRecord(t) {
      var fs := RandVals(t, FieldTypes(t));
      v := Rec(t, fs);
    } else if IsSum(t) {
      var i :| 0 <= i < |CtorsOf(t)|;
      var c := CtorsOf(t)[i];
      forall k | 0 <= k < |c.args| ensures Rank(c.args[k]) < Rank(t) { ArgsRank(t, c, k); }
      var args := RandVals(t, c.args);
      assert Builds(t, c.name, c.args);
      v := Con(c.name, args);
    } else if t.Tup? {
      var a := RandVal(t.fst);
      var b := RandVal(t.snd);
      v := Pair(a, b);
    } else {
      var n: nat :| n <= 3;
      var vs: seq<Val> := [];
      while |vs| < n
        invariant |vs| <= n && forall i :: 0 <= i < |vs| ==> HasType(t.of, vs[i])
        decreases n - |vs|
      {
        var x := RandVal(t.of);
        vs := vs + [x];
      }
      v := Items(vs);
    }
  }

  method RandVals(t: Ty, ts: seq<Ty>) returns (vs: seq<Val>)
    requires forall i :: 0 <= i < |ts| ==> Rank(ts[i]) < Rank(t)
    ensures |vs| == |ts| && forall i :: 0 <= i < |vs| ==> HasType(ts[i], vs[i])
    decreases Rank(t), 0
  {
    vs := [];
    while |vs| < |ts|
      invariant |vs| <= |ts| && forall i :: 0 <= i < |vs| ==> HasType(ts[i], vs[i])
      decreases |ts| - |vs|
    {
      var v := RandVal(ts[|vs|]);
      vs := vs + [v];
    }
  }

  /** A value that `p` matches. */
  method Witness(t: Ty, p: Pat) returns (v: Val)
    requires PatOk(t, p)
    ensures HasType(t, v) && Matches(p, v)
    decreases p, 1
  {
    match p
    case Wild => v := RandVal(t);
    case Bind(_) => v := RandVal(t);
    case Lit(l) => v := l;
    case Range(lo, hi) =>
      var i :| lo <= i <= hi;
      v := I(i);
    case As(_, q) => v := Witness(t, q);
    case RecP(_, subs) =>
      var fs := Witnesses(FieldTypes(t), subs);
      v := Rec(t, fs);
    case CtorP(c, subs) =>
      ghost var ts :| Builds(t, c, ts) && |ts| == |subs| && forall i :: 0 <= i < |subs| ==> PatOk(ts[i], subs[i]);
      BuildsArgs(t, c, ts);
      var args := Witnesses(ArgTypes(CtorsOf(t), c), subs);
      v := Con(c, args);
    case TupP(a, b) =>
      var x := Witness(t.fst, a);
      var y := Witness(t.snd, b);
      v := Pair(x, y);
    case ListP(_, _) => v := ListWitness(t, p);
  }

  method Witnesses(ts: seq<Ty>, ps: seq<Pat>) returns (vs: seq<Val>)
    requires |ts| == |ps| && forall i :: 0 <= i < |ps| ==> PatOk(ts[i], ps[i])
    ensures |vs| == |ps| && forall i :: 0 <= i < |vs| ==> HasType(ts[i], vs[i]) && Matches(ps[i], vs[i])
    decreases ps, 0
  {
    vs := [];
    while |vs| < |ps|
      invariant |vs| <= |ps| && forall i :: 0 <= i < |vs| ==> HasType(ts[i], vs[i]) && Matches(ps[i], vs[i])
    {
      var v := Witness(ts[|vs|], ps[|vs|]);
      vs := vs + [v];
    }
  }

  method ListWitness(t: Ty, p: Pat) returns (v: Val)
    requires PatOk(t, p) && p.ListP?
    ensures HasType(t, v) && Matches(p, v)
    decreases p, 0
  {
    var vs := Witnesses(seq(|p.fixed|, i => t.of), p.fixed);
    var extra: nat :| extra <= 1 && (p.rest.Exact? ==> extra == 0);
    if extra > 0 {
      var x := RandVal(t.of);
      vs := vs + [x];
    }
    v := Items(vs);
  }

  // ---------- arms ----------

  datatype Guard = NoGuard | Above(x: Var, ty: Ty, k: int)

  datatype Arm = Arm(pat: Pat, guard: Guard, weight: int)

  predicate Plain(a: Arm) { a.guard.NoGuard? }

  /** A guard is about one of the binders. */
  ghost predicate ArmOk(t: Ty, a: Arm) {
    && PatOk(t, a.pat) && Linear(Binders(t, a.pat))
    && (a.guard.Above? ==> (a.guard.x, a.guard.ty) in Binders(t, a.pat))
  }

  ghost predicate ArmsOk(t: Ty, arms: seq<Arm>) {
    forall i :: 0 <= i < |arms| ==> ArmOk(t, arms[i])
  }

  /** What an observer makes of a value of a type. */
  type Observer = (Ty, Val) -> int

  function Passes(a: Arm, v: Val, obs: Observer): bool
    requires Matches(a.pat, v)
  {
    match a.guard
    case NoGuard => true
    case Above(x, ty, k) => x in EnvOf(a.pat, v) && obs(ty, EnvOf(a.pat, v)[x]) > k
  }

  predicate Takes(a: Arm, v: Val, obs: Observer) {
    Matches(a.pat, v) && Passes(a, v, obs)
  }

  /** No value of `t` falls through the arms that have no guard. */
  ghost predicate Exhaustive(t: Ty, arms: seq<Arm>) {
    forall v: Val :: HasType(t, v) ==> exists i :: 0 <= i < |arms| && Plain(arms[i]) && Matches(arms[i].pat, v)
  }

  function Body(bs: seq<(Var, Ty)>, env: Env, weight: int, obs: Observer): int
    requires forall b <- bs :: b.0 in env
  {
    if bs == [] then weight
    else Body(bs[..|bs| - 1], env, weight, obs) + (|bs| + 1) * obs(bs[|bs| - 1].1, env[bs[|bs| - 1].0])
  }

  /** Runs a match. `taken` is -1 if no arm takes the value, which the generator reports as a
      bug of its own. No name is looked up that is not bound. */
  method Run(t: Ty, arms: seq<Arm>, v: Val, obs: Observer) returns (taken: int, result: int)
    requires ArmsOk(t, arms) && HasType(t, v)
    ensures -1 <= taken < |arms|
    ensures if taken < 0 then forall i :: 0 <= i < |arms| ==> !Takes(arms[i], v, obs)
      else Takes(arms[taken], v, obs) && forall i :: 0 <= i < taken ==> !Takes(arms[i], v, obs)
    ensures Exhaustive(t, arms) ==> taken >= 0
    ensures taken >= 0 ==>
      var bs := Binders(t, arms[taken].pat);
      Binding(bs, EnvOf(arms[taken].pat, v)) && result == Body(bs, EnvOf(arms[taken].pat, v), arms[taken].weight, obs)
  {
    SomeTakes(t, arms, v, obs);
    var n := 0;
    while n < |arms|
      invariant n <= |arms| && forall i :: 0 <= i < n ==> !Takes(arms[i], v, obs)
    {
      assert ArmOk(t, arms[n]);
      var takes, out := Try(t, arms[n], v, obs);
      if takes { return n, out; }
      n := n + 1;
    }
    taken, result := -1, 0;
  }

  lemma SomeTakes(t: Ty, arms: seq<Arm>, v: Val, obs: Observer)
    requires HasType(t, v)
    ensures Exhaustive(t, arms) ==> exists i :: 0 <= i < |arms| && Takes(arms[i], v, obs)
  {
    if Exhaustive(t, arms) {
      var i :| 0 <= i < |arms| && Plain(arms[i]) && Matches(arms[i].pat, v);
      assert Takes(arms[i], v, obs);
    }
  }

  /** Runs an arm, if it takes the value. */
  method Try(t: Ty, a: Arm, v: Val, obs: Observer) returns (takes: bool, result: int)
    requires ArmOk(t, a) && HasType(t, v)
    ensures takes <==> Takes(a, v, obs)
    ensures takes ==> var bs := Binders(t, a.pat); Binding(bs, EnvOf(a.pat, v)) && result == Body(bs, EnvOf(a.pat, v), a.weight, obs)
  {
    takes, result := false, 0;
    var ok, env := MatchPat(a.pat, v, map[]);
    if ok {
      EnvBinds(t, a.pat, v);
      assert env == EnvOf(a.pat, v);
      takes := Guarded(t, a, v, env, obs);
      if takes {
        BodyVars(Binders(t, a.pat), env);
        result := Body(Binders(t, a.pat), env, a.weight, obs);
      }
    }
  }

  method Guarded(t: Ty, a: Arm, v: Val, env: Env, obs: Observer) returns (passes: bool)
    requires ArmOk(t, a) && Matches(a.pat, v) && env == EnvOf(a.pat, v) && Binding(Binders(t, a.pat), env)
    ensures passes <==> Passes(a, v, obs)
  {
    passes := true;
    if a.guard.Above? {
      var Above(x, ty, k) := a.guard;
      assert x in Vars(Binders(t, a.pat)) by { assert (x, ty).0 == x; }
      passes := obs(ty, env[x]) > k;
    }
  }

  lemma BodyVars(bs: seq<(Var, Ty)>, env: Env)
    requires env.Keys == Vars(bs)
    ensures forall b <- bs :: b.0 in env
  {
    forall b <- bs ensures b.0 in env { assert b.0 in Vars(bs); }
  }

  // ---------- the redundancy rule over arms ----------

  /** The heads of the arms without a guard. */
  function Heads(arms: seq<Arm>): set<Head> {
    if arms == [] then {} else
      var a := arms[|arms| - 1];
      Heads(arms[..|arms| - 1]) + if Plain(a) && ArmHead(a.pat) != NoHead then {ArmHead(a.pat)} else {}
  }

  lemma {:induction false} HeadsHave(arms: seq<Arm>, h: Head)
    ensures h in Heads(arms) <==> h != NoHead && exists i :: 0 <= i < |arms| && Plain(arms[i]) && ArmHead(arms[i].pat) == h
  {
    if arms != [] { HeadsHave(arms[..|arms| - 1], h); }
  }

  /** The typer accepts the arms: an unguarded arm does not repeat the head of an earlier one, and
      nothing follows an unguarded catch-all. */
  predicate Accepted(arms: seq<Arm>) {
    arms == [] || (Accepted(arms[..|arms| - 1]) && Adds(arms[..|arms| - 1], arms[|arms| - 1]))
  }

  predicate Adds(arms: seq<Arm>, a: Arm) {
    Star !in Heads(arms) && (Plain(a) ==> ArmHead(a.pat) !in Heads(arms))
  }

  lemma Append(arms: seq<Arm>, a: Arm)
    ensures Accepted(arms + [a]) <==> Accepted(arms) && Adds(arms, a)
    ensures Heads(arms + [a]) == Heads(arms) + if Plain(a) && ArmHead(a.pat) != NoHead then {ArmHead(a.pat)} else {}
  {
    assert (arms + [a])[..|arms|] == arms;
  }

  /** What the generator keeps while it adds arms: `seen` are the heads so far. */
  ghost predicate Growing(t: Ty, arms: seq<Arm>, seen: set<Head>) {
    ArmsOk(t, arms) && seen == Heads(arms) && Accepted(arms)
  }

  // ---------- drawing patterns ----------

  const MaxDepth := 3

  /** The names drawn for one arm. */
  class Drawn {
    var n: nat
    var used: set<Var>

    ghost predicate Valid()
      reads this
    {
      forall x <- used :: x.Fresh? ==> x.n < n
    }

    constructor ()
      ensures Valid() && used == {}
    {
      n, used := 0, {};
    }

    method FreshVar() returns (x: Var)
      requires Valid()
      modifies this
      ensures Valid() && x.Fresh? && x !in old(used) && used == old(used) + {x}
    {
      x := Fresh(n);
      n, used := n + 1, used + {x};
    }
  }

  /** A drawn pattern fits its type, and its binders are new and differ. */
  ghost predicate Draws(t: Ty, p: Pat, was: set<Var>, now: set<Var>) {
    PatOk(t, p) && New(Binders(t, p), was, now)
  }

  ghost predicate New(bs: seq<(Var, Ty)>, was: set<Var>, now: set<Var>) {
    Linear(bs) && was <= now && Vars(bs) <= now && Vars(bs) !! was
  }

  lemma NewBoth(a: seq<(Var, Ty)>, b: seq<(Var, Ty)>, was: set<Var>, mid: set<Var>, now: set<Var>)
    requires New(a, was, mid) && New(b, mid, now)
    ensures New(a + b, was, now)
  {
    VarsAppend(a, b);
    LinearBoth(a, b);
  }

  /** What may be drawn where no structure is: a name and a wildcard always. */
  predicate LeafDraw(t: Ty, p: Pat) {
    match p
    case Wild => true
    case Bind(x) => x.Fresh?
    case Lit(v) => if v.I? then t.IntT? else if v.B? then t.BoolT? else v.R? && t.RealT?
    case Range(lo, hi) => t.IntT? && lo <= hi
    case _ => false
  }

  method LeafPat(t: Ty, names: Drawn) returns (p: Pat)
    requires names.Valid()
    modifies names
    ensures names.Valid() && Draws(t, p, old(names.used), names.used) && LeafDraw(t, p)
  {
    if
    case t.IntT? =>
      var lo, hi :| lo <= hi;
      p := Range(lo, hi);
    case IsScalar(t) =>
      var v := RandVal(t);
      p := Lit(v);
    case true => p := Wild;
    case true =>
      var x := names.FreshVar();
      p := Bind(x);
      OneVar(x, t);
  }

  method GenPat(t: Ty, depth: nat, names: Drawn) returns (p: Pat)
    requires names.Valid() && depth <= MaxDepth
    modifies names
    ensures names.Valid() && Draws(t, p, old(names.used), names.used)
    decreases MaxDepth - depth, 3
  {
    var leaf: bool := *;
    if IsScalar(t) || depth >= MaxDepth || leaf {
      p := LeafPat(t, names);
    } else {
      var bind: bool := *;
      p := StructuredPat(t, depth, names);
      if bind {
        ghost var mid := names.used;
        var x := names.FreshVar();
        AsNew(t, x, p, old(names.used), mid, names.used);
        p := As(x, p);
      }
    }
  }

  lemma AsNew(t: Ty, x: Var, p: Pat, was: set<Var>, mid: set<Var>, now: set<Var>)
    requires Draws(t, p, was, mid) && x !in mid && now == mid + {x}
    ensures Draws(t, As(x, p), was, now)
  {
    OneVar(x, t);
    NewAround([(x, t)], Binders(t, p), was, mid, now);
  }

  lemma OneVar(x: Var, t: Ty)
    ensures Vars([(x, t)]) == {x} && Linear([(x, t)])
  {
    assert [(x, t)][0].0 == x;
  }

  /** The binders `a` are drawn last and stand first. */
  lemma NewAround(a: seq<(Var, Ty)>, b: seq<(Var, Ty)>, was: set<Var>, mid: set<Var>, now: set<Var>)
    requires New(b, was, mid) && New(a, mid, now)
    ensures New(a + b, was, now)
  {
    VarsAppend(a, b);
    LinearBoth(a, b);
  }

  method StructuredPat(t: Ty, depth: nat, names: Drawn) returns (p: Pat)
    requires names.Valid() && depth < MaxDepth && !IsScalar(t)
    modifies names
    ensures names.Valid() && Draws(t, p, old(names.used), names.used) && !CatchAll(p)
    decreases MaxDepth - depth, 2
  {
    if IsRecord(t) {
      var subs := GenFields(t, depth, names);
      p := RecP(t, subs);
    } else if IsSum(t) {
      var i :| 0 <= i < |CtorsOf(t)|;
      var c := CtorsOf(t)[i];
      assert Builds(t, c.name, c.args);
      BuildsArgs(t, c.name, c.args);
      var subs := GenPats(c.args, depth, names);
      p := CtorP(c.name, subs);
    } else if t.Tup? {
      var a := GenPat(t.fst, depth + 1, names);
      ghost var mid := names.used;
      var b := GenPat(t.snd, depth + 1, names);
      NewBoth(Binders(t.fst, a), Binders(t.snd, b), old(names.used), mid, names.used);
      p := TupP(a, b);
    } else {
      p := GenListPat(t, depth, names);
    }
  }

  method GenPats(ts: seq<Ty>, depth: nat, names: Drawn) returns (ps: seq<Pat>)
    requires names.Valid() && depth < MaxDepth
    modifies names
    ensures names.Valid() && |ps| == |ts| && forall i :: 0 <= i < |ps| ==> PatOk(ts[i], ps[i])
    ensures New(AllBinders(ts, ps), old(names.used), names.used)
    decreases MaxDepth - depth, 0
  {
    ps := [];
    while |ps| < |ts|
      invariant names.Valid() && |ps| <= |ts| && forall i :: 0 <= i < |ps| ==> PatOk(ts[i], ps[i])
      invariant New(AllBinders(ts[..|ps|], ps), old(names.used), names.used)
      decreases |ts| - |ps|
    {
      ghost var k, mid := |ps|, names.used;
      var p := GenPat(ts[|ps|], depth + 1, names);
      NewBoth(AllBinders(ts[..k], ps), Binders(ts[k], p), old(names.used), mid, names.used);
      BindersSnoc(ts[..k], ps, ts[k], p);
      assert ts[..k + 1] == ts[..k] + [ts[k]];
      ps := ps + [p];
    }
    assert ts[..|ps|] == ts;
  }

  lemma BindersSnoc(ts: seq<Ty>, ps: seq<Pat>, t: Ty, p: Pat)
    requires |ts| == |ps|
    ensures AllBinders(ts + [t], ps + [p]) == AllBinders(ts, ps) + Binders(t, p)
  {
    assert (ts + [t])[..|ts|] == ts && (ps + [p])[..|ps|] == ps;
  }

  /** A field may be bound to its own name. */
  method GenFields(t: Ty, depth: nat, names: Drawn) returns (ps: seq<Pat>)
    requires names.Valid() && depth < MaxDepth && IsRecord(t)
    modifies names
    ensures names.Valid() && |ps| == |FieldTypes(t)| && forall i :: 0 <= i < |ps| ==> PatOk(FieldTypes(t)[i], ps[i])
    ensures New(AllBinders(FieldTypes(t), ps), old(names.used), names.used)
    decreases MaxDepth - depth, 1
  {
    var ts := FieldTypes(t);
    ps := [];
    while |ps| < |ts|
      invariant names.Valid() && |ps| <= |ts| && forall i :: 0 <= i < |ps| ==> PatOk(ts[i], ps[i])
      invariant New(AllBinders(ts[..|ps|], ps), old(names.used), names.used)
      decreases |ts| - |ps|
    {
      ghost var k, mid := |ps|, names.used;
      var p := GenField(ts[|ps|], FieldNames(t)[|ps|], depth, names);
      NewBoth(AllBinders(ts[..k], ps), Binders(ts[k], p), old(names.used), mid, names.used);
      BindersSnoc(ts[..k], ps, ts[k], p);
      assert ts[..k + 1] == ts[..k] + [ts[k]];
      ps := ps + [p];
    }
    assert ts[..|ps|] == ts;
  }

  method GenField(t: Ty, field: Name, depth: nat, names: Drawn) returns (p: Pat)
    requires names.Valid() && depth < MaxDepth
    modifies names
    ensures names.Valid() && Draws(t, p, old(names.used), names.used)
    decreases MaxDepth - depth, 0
  {
    var own: bool := *;
    var x := OfField(field);
    if own && x !in names.used {
      names.used := names.used + {x};
      p := Bind(x);
      OneVar(x, t);
    } else {
      p := GenPat(t, depth + 1, names);
    }
  }

  method GenListPat(t: Ty, depth: nat, names: Drawn) returns (p: Pat)
    requires names.Valid() && depth < MaxDepth && t.ListT?
    modifies names
    ensures names.Valid() && Draws(t, p, old(names.used), names.used) && p.ListP?
    decreases MaxDepth - depth, 1
  {
    var n: nat :| n <= 2;
    var ts := seq(n, i => t.of);
    var fixed := GenPats(ts, depth, names);
    assert seq(|fixed|, i => t.of) == ts;
    ghost var mid := names.used;
    var rest: nat :| rest <= 2;
    if rest == 2 {
      var x := names.FreshVar();
      OneVar(x, t);
      NewBoth(AllBinders(ts, fixed), [(x, t)], old(names.used), mid, names.used);
      p := ListP(fixed, Bound(x));
    } else {
      p := ListP(fixed, if rest == 0 then Exact else AnyRest);
      assert AllBinders(ts, fixed) + [] == AllBinders(ts, fixed);
    }
  }
}
