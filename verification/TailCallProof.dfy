/** The emitted code does what the program means, and no variable is used after it moved. */
module TailCallProof {
  import opened Stage0
  import opened TailCalls
  import opened UseCount
  import opened CScopes
  import opened TailCallScopes

  // ---------- how frames and environments relate ----------

  /** How often each declaration is used in what is still to run. */
  type Count = imap<Id, nat>

  ghost function U(e: Expr, scope: seq<Decl>): Count { imap id: Id :: Uses(id, e, scope) }
  ghost function UArgs(es: Args, scope: seq<Decl>): Count { imap id: Id :: ArgsUses(id, es, scope) }
  ghost function UArms(arms: Arms, scope: seq<Decl>): Count { imap id: Id :: ArmsUses(id, arms, scope) }

  ghost predicate All(u: Count) { forall id: Id :: id in u }

  predicate SameSlot(b: Bound, s: Slot) {
    s.decl == b.decl && (s.val.Some? ==> s.val.value == b.v)
  }

  ghost predicate Rel(env: Env, fr: Frame) {
    |env| == |fr| && forall k :: 0 <= k < |fr| ==> SameSlot(env[k], fr[k])
  }

  predicate OkSlot(ctx: Ctx, s: Slot, n: nat) {
    s.val.None? ==> n == 0
  }

  /** A variable that has moved is not used in what is still to run. */
  ghost predicate Fit(ctx: Ctx, fr: Frame, u: Count) {
    All(u) && forall k :: 0 <= k < |fr| ==> OkSlot(ctx, fr[k], u[fr[k].decl.id])
  }

  predicate MovedSlot(ctx: Ctx, s: Slot, s': Slot, n: nat) {
    s'.decl == s.decl && (s'.val.None? ==> s.val.None? || (s.decl.id in ctx.bare && n > 0))
  }

  /** What has moved meanwhile was used by what has run. */
  ghost predicate After(ctx: Ctx, fr: Frame, fr': Frame, u: Count) {
    All(u) && |fr| == |fr'| && forall k :: 0 <= k < |fr| ==> MovedSlot(ctx, fr[k], fr'[k], u[fr[k].decl.id])
  }

  ghost predicate Sum(u: Count, u1: Count, u2: Count) {
    All(u) && All(u1) && All(u2) && forall id: Id :: u[id] == u1[id] + u2[id]
  }

  ghost predicate AtMostOnce(ctx: Ctx, u: Count) {
    All(u) && forall id <- ctx.bare :: u[id] <= 1
  }

  /** After the first of two parts has run, the second can. */
  lemma FitNext(ctx: Ctx, fr: Frame, fr1: Frame, u: Count, u1: Count, u2: Count)
    requires Sum(u, u1, u2) && Fit(ctx, fr, u) && AtMostOnce(ctx, u) && After(ctx, fr, fr1, u1)
    ensures Fit(ctx, fr1, u2)
  {
    forall k | 0 <= k < |fr1| ensures OkSlot(ctx, fr1[k], u2[fr1[k].decl.id]) {
      assert MovedSlot(ctx, fr[k], fr1[k], u1[fr[k].decl.id]) && OkSlot(ctx, fr[k], u[fr[k].decl.id]);
    }
  }

  lemma FitFirst(ctx: Ctx, fr: Frame, u: Count, u1: Count, u2: Count)
    requires Sum(u, u1, u2) && Fit(ctx, fr, u)
    ensures Fit(ctx, fr, u1)
  {
    forall k | 0 <= k < |fr| ensures OkSlot(ctx, fr[k], u1[fr[k].decl.id]) {
      assert OkSlot(ctx, fr[k], u[fr[k].decl.id]);
    }
  }

  lemma AfterBoth(ctx: Ctx, fr: Frame, fr1: Frame, fr2: Frame, u: Count, u1: Count, u2: Count)
    requires Sum(u, u1, u2) && After(ctx, fr, fr1, u1) && After(ctx, fr1, fr2, u2)
    ensures After(ctx, fr, fr2, u)
  {
    forall k | 0 <= k < |fr| ensures MovedSlot(ctx, fr[k], fr2[k], u[fr[k].decl.id]) {
      assert MovedSlot(ctx, fr[k], fr1[k], u1[fr[k].decl.id]) && MovedSlot(ctx, fr1[k], fr2[k], u2[fr1[k].decl.id]);
    }
  }

  lemma AfterMore(ctx: Ctx, fr: Frame, fr1: Frame, u: Count, u1: Count)
    requires After(ctx, fr, fr1, u1) && All(u) && forall id: Id :: u1[id] <= u[id]
    ensures After(ctx, fr, fr1, u)
  {
    forall k | 0 <= k < |fr| ensures MovedSlot(ctx, fr[k], fr1[k], u[fr[k].decl.id]) {
      assert MovedSlot(ctx, fr[k], fr1[k], u1[fr[k].decl.id]);
    }
  }

  /** Binders add variables that own what they hold. */
  lemma FitBinders(ctx: Ctx, fr: Frame, u: Count, more: Env)
    requires Fit(ctx, fr, u)
    ensures Fit(ctx, fr + Full(more), u)
  {
    forall k | 0 <= k < |fr + Full(more)| ensures OkSlot(ctx, (fr + Full(more))[k], u[(fr + Full(more))[k].decl.id]) {
      if k < |fr| { assert OkSlot(ctx, fr[k], u[fr[k].decl.id]); }
    }
  }

  lemma RelBinders(env: Env, fr: Frame, more: Env)
    requires Rel(env, fr)
    ensures Rel(env + more, fr + Full(more)) && Decls(env + more) == Decls(env) + Decls(more)
  {
    forall k | 0 <= k < |env + more| ensures SameSlot((env + more)[k], (fr + Full(more))[k]) {
      if k < |env| { assert SameSlot(env[k], fr[k]); }
    }
  }

  /** And they go at the end of their scope. */
  lemma DropBinders(ctx: Ctx, env: Env, fr: Frame, more: Env, fr': Frame, u: Count)
    requires Rel(env, fr) && Rel(env + more, fr') && After(ctx, fr + Full(more), fr', u)
    ensures Rel(env, fr'[..|fr|]) && After(ctx, fr, fr'[..|fr|], u)
  {
    forall k | 0 <= k < |fr| ensures SameSlot(env[k], fr'[k]) && MovedSlot(ctx, fr[k], fr'[k], u[fr[k].decl.id]) {
      assert SameSlot((env + more)[k], fr'[k]) && (fr + Full(more))[k] == fr[k];
      assert MovedSlot(ctx, (fr + Full(more))[k], fr'[k], u[(fr + Full(more))[k].decl.id]);
    }
  }

  lemma SameDecls(env: Env, fr: Frame)
    requires Rel(env, fr)
    ensures FrameDecls(fr) == Decls(env)
  {
    forall k | 0 <= k < |fr| ensures FrameDecls(fr)[k] == Decls(env)[k] {
      assert SameSlot(env[k], fr[k]);
    }
  }

  lemma NothingMoved(ctx: Ctx, env: Env, fr: Frame, u: Count, v: Count)
    requires Rel(env, fr) && Fit(ctx, fr, u) && All(v)
    ensures After(ctx, fr, fr, v)
  {
    forall k | 0 <= k < |fr| ensures MovedSlot(ctx, fr[k], fr[k], v[fr[k].decl.id]) {
      assert OkSlot(ctx, fr[k], u[fr[k].decl.id]);
    }
  }

  // ---------- what the use counts say ----------

  predicate OnceId(id: Id, e: Expr, scope: seq<Decl>) {
    Uses(id, e, scope) <= 1 && LamUses(id, e, scope) == 0
  }

  predicate OnceArgsId(id: Id, es: Args, scope: seq<Decl>) {
    ArgsUses(id, es, scope) <= 1 && ArgsLamUses(id, es, scope) == 0
  }

  predicate OnceArmsId(id: Id, arms: Arms, scope: seq<Decl>) {
    ArmsUses(id, arms, scope) <= 1 && ArmsLamUses(id, arms, scope) == 0
  }

  /** A declaration that is read bare is used at most once in `e`, and not in a lambda. */
  predicate Once(ctx: Ctx, e: Expr, scope: seq<Decl>) {
    forall id <- ctx.bare :: OnceId(id, e, scope)
  }

  predicate OnceArgs(ctx: Ctx, es: Args, scope: seq<Decl>) {
    forall id <- ctx.bare :: OnceArgsId(id, es, scope)
  }

  predicate OnceArms(ctx: Ctx, arms: Arms, scope: seq<Decl>) {
    forall id <- ctx.bare :: OnceArmsId(id, arms, scope)
  }

  lemma OnceIsOnce(ctx: Ctx, e: Expr, scope: seq<Decl>)
    requires Once(ctx, e, scope)
    ensures AtMostOnce(ctx, U(e, scope))
  {
    forall id <- ctx.bare ensures U(e, scope)[id] <= 1 { assert OnceId(id, e, scope); }
  }

  /** The emitted code does what `r` says, and moves only what it uses. */
  ghost predicate Agrees<T>(ctx: Ctx, r: Res<T>, o: Out<T>, env: Env, fr: Frame, u: Count) {
    match r
    case Val(v) => o.Done? && o.v == v && Rel(env, o.fr) && After(ctx, fr, o.fr, u)
    case Panic => o == Panicked
    case Timeout => o == Hung
    case Mismatch => true
  }

  /** What is needed to run `e`. */
  ghost predicate CanRun(ctx: Ctx, e: Expr, env: Env, fr: Frame) {
    && Rel(env, fr) && Fit(ctx, fr, U(e, Decls(env))) && Once(ctx, e, Decls(env))
    && (ctx.inFn ==> Unmarked(e)) && Fine(e, env)
  }

  /** The code and the values around it are well formed, and its declarations are new. */
  predicate Fine(e: Expr, env: Env) {
    Good(e) && GoodEnv(env) && New(Binders(e), Decls(env))
  }

  predicate FineArgs(es: Args, env: Env) {
    GoodArgs(es) && GoodEnv(env) && New(ArgsBinders(es), Decls(env))
  }

  predicate FineArms(arms: Arms, env: Env) {
    GoodArms(arms) && GoodEnv(env) && New(ArmsBinders(arms), Decls(env))
  }

  // ---------- expressions that are not in tail position ----------

  lemma ReadAgrees(p: Program, ctx: Ctx, x: Name, env: Env, fr: Frame)
    requires Rel(env, fr) && Fit(ctx, fr, U(Var(x), Decls(env)))
    ensures Agrees(ctx, ReadVar(p, x, env), Read(p, ctx, x, fr), env, fr, U(Var(x), Decls(env)))
  {
    SameDecls(env, fr);
    var k := Innermost(Decls(env), x);
    var u := U(Var(x), Decls(env));
    NothingMoved(ctx, env, fr, u, u);
    if k >= 0 {
      assert OkSlot(ctx, fr[k], u[fr[k].decl.id]) && SameSlot(env[k], fr[k]);
      assert u[fr[k].decl.id] == 1;
      var fr1 := fr[k := Slot(fr[k].decl, None)];
      forall j | 0 <= j < |fr| ensures SameSlot(env[j], fr1[j]) { assert SameSlot(env[j], fr[j]); }
      if fr[k].decl.id in ctx.bare {
        forall j | 0 <= j < |fr| ensures MovedSlot(ctx, fr[j], fr1[j], u[fr[j].decl.id]) {
          assert OkSlot(ctx, fr[j], u[fr[j].decl.id]);
        }
      }
    }
  }

  /** The second of two parts runs, and then both have. */
  lemma Chain<T>(ctx: Ctx, r: Res<T>, o: Out<T>, env: Env, fr: Frame, fr1: Frame, u: Count, u1: Count, u2: Count)
    requires Sum(u, u1, u2) && After(ctx, fr, fr1, u1) && Agrees(ctx, r, o, env, fr1, u2)
    ensures Agrees(ctx, r, o, env, fr, u)
  {
    if r.Val? { AfterBoth(ctx, fr, fr1, o.fr, u, u1, u2); }
  }

  lemma More<T>(ctx: Ctx, r: Res<T>, o: Out<T>, env: Env, fr: Frame, u: Count, u1: Count)
    requires All(u) && All(u1) && Agrees(ctx, r, o, env, fr, u1) && forall id: Id :: u1[id] <= u[id]
    ensures Agrees(ctx, r, o, env, fr, u)
  {
    if r.Val? { AfterMore(ctx, fr, o.fr, u, u1); }
  }

  /** Leaving the scope of some binders. */
  lemma LeaveAgrees(ctx: Ctx, r: Res<V>, o: Out<V>, env: Env, fr: Frame, more: Env, u: Count)
    requires Rel(env, fr) && Agrees(ctx, r, o, env + more, fr + Full(more), u)
    ensures Agrees(ctx, r, Leave(o, |fr|), env, fr, u)
  {
    if r.Val? { DropBinders(ctx, env, fr, more, o.fr, u); }
  }

  /** The body of an arm whose guard held, seen from before the arm. */
  lemma TakenAgrees(ctx: Ctx, r: Res<V>, o: Out<V>, env: Env, fr: Frame, more: Env, fr1: Frame, u: Count, ug: Count, ub: Count, u2: Count)
    requires Rel(env, fr) && Agrees(ctx, r, o, env + more, fr1, ub) && After(ctx, fr + Full(more), fr1, ug)
    requires Sum(u, ug, u2) && All(u2) && All(ub) && forall id: Id :: ub[id] <= u2[id]
    ensures Agrees(ctx, r, Leave(o, |fr|), env, fr, u)
  {
    More(ctx, r, o, env + more, fr1, u2, ub);
    Chain(ctx, r, o, env + more, fr + Full(more), fr1, u, ug, u2);
    LeaveAgrees(ctx, r, o, env, fr, more, u);
  }

  lemma {:induction false} CaptureAgrees(ps: seq<Name>, b: Expr, env: Env, fr: Frame, all: seq<Decl>)
    requires Rel(env, fr)
    requires forall k :: 0 <= k < |fr| && fr[k].val.None? ==> Uses(fr[k].decl.id, b, all + Shadowed(ps)) == 0
    ensures Capture(ps, b, fr, all) == Some(Captured(ps, b, env, all))
  {
    if fr != [] {
      var n := |fr| - 1;
      assert SameSlot(env[n], fr[n]);
      forall k | 0 <= k < n ensures SameSlot(env[..n][k], fr[..n][k]) { assert SameSlot(env[k], fr[k]); }
      forall k | 0 <= k < n && fr[..n][k].val.None? ensures Uses(fr[..n][k].decl.id, b, all + Shadowed(ps)) == 0 {
        assert fr[k].val.None?;
      }
      CaptureAgrees(ps, b, env[..n], fr[..n], all);
      assert Captured(ps, b, env[..n], all) + [] == Captured(ps, b, env[..n], all);
    }
  }

  lemma LambdaAgrees(p: Program, ctx: Ctx, fuel: nat, e: Expr, env: Env, fr: Frame)
    requires CanRun(ctx, e, env, fr) && e.Lambda?
    ensures Agrees(ctx, Eval(p, fuel, e, env), Run(p, ctx, fuel, e, fr), env, fr, U(e, Decls(env)))
  {
    SameDecls(env, fr);
    var u := U(e, Decls(env));
    forall k | 0 <= k < |fr| && fr[k].val.None? ensures Uses(fr[k].decl.id, e.body, Decls(env) + Shadowed(e.params)) == 0 {
      assert OkSlot(ctx, fr[k], u[fr[k].decl.id]);
    }
    CaptureAgrees(e.params, e.body, env, fr, Decls(env));
    NothingMoved(ctx, env, fr, u, u);
  }

  // ---------- the program ----------

  /** At each self-tail-call, no name bound since the entry of the function is a parameter's. */
  predicate NoCapture(shadows: seq<Name>, e: Expr, f: Name, params: seq<Decl>)
    decreases e
  {
    match e
    case Call(g, args, _) =>
      IsSelfCall(shadows, g, args, f, |params|) ==> forall j :: 0 <= j < |params| ==> params[j].name !in shadows
    case If(_, t, u) => NoCapture(shadows, t, f, params) && NoCapture(shadows, u, f, params)
    case Match(_, arms) => NoCaptureArms(shadows, arms, f, params)
    case Let(pat, _, b) => NoCapture(shadows + Names(PatDecls(pat)), b, f, params)
    case Then(_, b) => NoCapture(shadows, b, f, params)
    case Block(b) => NoCapture(shadows, b, f, params)
    case _ => true
  }

  predicate NoCaptureArms(shadows: seq<Name>, arms: Arms, f: Name, params: seq<Decl>)
    decreases arms
  {
    arms.Arm? ==> NoCapture(shadows + Names(PatDecls(arms.pat)), arms.body, f, params) && NoCaptureArms(shadows, arms.rest, f, params)
  }

  /** C does not allow two parameters of one name. */
  predicate DistinctNames(ds: seq<Decl>) {
    forall j, k :: 0 <= j < k < |ds| ==> ds[j].name != ds[k].name
  }

  predicate OkFn(f: Name, fn: Fn) {
    && Unmarked(fn.body) && NoCapture([], fn.body, f, fn.params)
    && (Walk([], fn.body, f, |fn.params|) ==> f !in Names(fn.params)) && DistinctNames(fn.params)
    && Good(fn.body) && New(Binders(fn.body), fn.params) && IsC(fn.body)
  }

  ghost predicate OkProgram(p: Program) {
    TamePrim(p) && forall f <- p.fns :: OkFn(f, p.fns[f])
  }

  lemma IsGoodCode(p: Program)
    requires OkProgram(p)
    ensures GoodCode(p)
  {
    forall f <- p.fns ensures Good(p.fns[f].body) { assert OkFn(f, p.fns[f]); }
  }

  /** Fine in the scope of a pattern's binders. */
  predicate FineUnder(e: Expr, pat: Pat, env: Env) {
    Good(e) && GoodEnv(env) && New(Binders(e), Decls(env) + PatDecls(pat))
  }

  lemma FineBody(e: Expr, pat: Pat, v: V, env: Env)
    requires FineUnder(e, pat, env) && Matches(pat, v) && GoodV(v)
    ensures Fine(e, env + Binds(pat, v))
  {
    var more := Binds(pat, v);
    GoodBinds(pat, v);
    assert Decls(env + more) == Decls(env) + PatDecls(pat);
    forall i | 0 <= i < |env + more| ensures GoodV((env + more)[i].v) {
      if i >= |env| { assert (env + more)[i] == more[i - |env|]; }
    }
  }

  lemma LetFine(e: Expr, env: Env)
    requires Fine(e, env) && e.Let?
    ensures Fine(e.rhs, env) && FineUnder(e.body, e.pat, env)
  {
    IdsAppend(Decls(env), PatDecls(e.pat));
  }

  lemma ArmFine(arms: Arms, env: Env)
    requires FineArms(arms, env) && arms.Arm?
    ensures FineUnder(arms.body, arms.pat, env) && FineArms(arms.rest, env)
    ensures arms.guard.When? ==> FineUnder(arms.guard.cond, arms.pat, env)
  {
    IdsAppend(Decls(env), PatDecls(arms.pat));
    if arms.guard.When? { assert GuardBinders(arms.guard) == Binders(arms.guard.cond); }
  }

  /** The variable of a `let`, as its initialiser finds it. */
  function Unknown(pat: Pat): Env {
    if pat.Bind? then [Bound(pat.decl, Int(0))] else []
  }

  /** The initialiser of a `let` can run although its own variable is in scope already. */
  lemma RhsCanRun(ctx: Ctx, e: Expr, env: Env, fr: Frame)
    requires e.Let? && Rel(env, fr) && Fit(ctx, fr, U(e.rhs, Decls(env))) && Once(ctx, e.rhs, Decls(env))
    requires Fine(e, env) && (ctx.inFn ==> Unmarked(e.rhs))
    ensures CanRun(ctx, e.rhs, env + Unknown(e.pat), fr + Unset(e.pat))
    ensures U(e.rhs, Decls(env + Unknown(e.pat))) == U(e.rhs, Decls(env))
  {
    LetFine(e, env);
    if e.pat.Bind? {
      var d, scope, r := e.pat.decl, Decls(env), e.rhs;
      var env1, fr1 := env + Unknown(e.pat), fr + Unset(e.pat);
      assert PatDecls(e.pat)[0] == d;
      assert Decls(env1) == scope + [d] && scope + [d] + [] == scope + [d] && scope + [] == scope;
      forall id: Id ensures Uses(id, r, scope + [d]) == Uses(id, r, scope) && LamUses(id, r, scope + [d]) == LamUses(id, r, scope) {
        CountsWithout(id, r, scope, d, []);
      }
      Unused(d.id, r, scope);
      var u := U(r, scope);
      forall k | 0 <= k < |fr1| ensures SameSlot(env1[k], fr1[k]) && OkSlot(ctx, fr1[k], u[fr1[k].decl.id]) {
        if k < |fr| { assert SameSlot(env[k], fr[k]) && OkSlot(ctx, fr[k], u[fr[k].decl.id]); }
      }
      forall id <- ctx.bare ensures OnceId(id, r, scope + [d]) { assert OnceId(id, r, scope); }
      IdsAppend(scope, [d]);
    } else {
      assert env + Unknown(e.pat) == env && fr + Unset(e.pat) == fr;
    }
  }

  /** What the initialiser leaves, without its variable. */
  lemma RhsDone(p: Program, ctx: Ctx, fuel: nat, e: Expr, env: Env, fr: Frame, o: Out<V>)
    requires e.Let? && OkProgram(p) && Rel(env, fr) && Fine(e, env)
    requires Agrees(ctx, Eval(p, fuel, e.rhs, env + Unknown(e.pat)), o, env + Unknown(e.pat), fr + Unset(e.pat), U(e.rhs, Decls(env)))
    ensures var r := Eval(p, fuel, e.rhs, env);
      match r
      case Val(v) => o.Done? && o.v == v && GoodV(v) && |fr| <= |o.fr| && Rel(env, o.fr[..|fr|]) && After(ctx, fr, o.fr[..|fr|], U(e.rhs, Decls(env)))
      case Panic => o == Panicked
      case Timeout => o == Hung
      case Mismatch => true
  {
    LetFine(e, env);
    IsGoodCode(p);
    EvalGood(p, fuel, e.rhs, env);
    if e.pat.Bind? {
      var x := Bound(e.pat.decl, Int(0));
      assert PatDecls(e.pat)[0] == x.decl;
      assert env + [x] + [] == env + [x] && env + [] == env;
      EvalWithout(p, fuel, e.rhs, env, x, []);
    } else {
      assert env + Unknown(e.pat) == env;
    }
    if Eval(p, fuel, e.rhs, env).Val? { TrimFrame(ctx, env, fr, Unknown(e.pat), Unset(e.pat), o.fr, U(e.rhs, Decls(env))); }
  }

  lemma TrimFrame(ctx: Ctx, env: Env, fr: Frame, more: Env, unset: Frame, fr': Frame, u: Count)
    requires Rel(env, fr) && Rel(env + more, fr') && After(ctx, fr + unset, fr', u)
    ensures |fr| <= |fr'| && Rel(env, fr'[..|fr|]) && After(ctx, fr, fr'[..|fr|], u)
  {
    forall k | 0 <= k < |fr| ensures SameSlot(env[k], fr'[k]) && MovedSlot(ctx, fr[k], fr'[k], u[fr[k].decl.id]) {
      assert SameSlot((env + more)[k], fr'[k]) && (fr + unset)[k] == fr[k];
      assert MovedSlot(ctx, (fr + unset)[k], fr'[k], u[(fr + unset)[k].decl.id]);
    }
  }

  // ---------- the proof ----------

  lemma Agree(p: Program, ctx: Ctx, fuel: nat, e: Expr, env: Env, fr: Frame)
    requires OkProgram(p) && CanRun(ctx, e, env, fr)
    ensures Agrees(ctx, Eval(p, fuel, e, env), Run(p, ctx, fuel, e, fr), env, fr, U(e, Decls(env)))
    decreases fuel, 2, e, 1
  {
    SameDecls(env, fr);
    match e
    case Lit(_) => NothingMoved(ctx, env, fr, U(e, Decls(env)), U(e, Decls(env)));
    case Var(x) => ReadAgrees(p, ctx, x, env, fr);
    case Prim(_, _) => AgreePrim(p, ctx, fuel, e, env, fr);
    case Call(_, _, _) => AgreeCall(p, ctx, fuel, e, env, fr);
    case If(_, _, _) => AgreeIf(p, ctx, fuel, e, env, fr);
    case Match(_, _) => AgreeMatch(p, ctx, fuel, e, env, fr);
    case Let(_, _, _) => AgreeLet(p, ctx, fuel, e, env, fr);
    case Then(_, _) => AgreeThen(p, ctx, fuel, e, env, fr);
    case Lambda(_, _) => LambdaAgrees(p, ctx, fuel, e, env, fr);
    case Block(b) => AgreeBlock(p, ctx, fuel, e, env, fr);
  }

  lemma AgreePrim(p: Program, ctx: Ctx, fuel: nat, e: Expr, env: Env, fr: Frame)
    requires OkProgram(p) && CanRun(ctx, e, env, fr) && e.Prim?
    ensures Agrees(ctx, Eval(p, fuel, e, env), Run(p, ctx, fuel, e, fr), env, fr, U(e, Decls(env)))
    decreases fuel, 2, e, 0
  {
    var scope := Decls(env);
    forall id <- ctx.bare ensures OnceArgsId(id, e.args, scope) { assert OnceId(id, e, scope); }
    assert U(e, scope) == UArgs(e.args, scope);
    AgreeArgs(p, ctx, fuel, e.args, env, fr);
  }

  lemma AgreeBlock(p: Program, ctx: Ctx, fuel: nat, e: Expr, env: Env, fr: Frame)
    requires OkProgram(p) && CanRun(ctx, e, env, fr) && e.Block?
    ensures Agrees(ctx, Eval(p, fuel, e, env), Run(p, ctx, fuel, e, fr), env, fr, U(e, Decls(env)))
    decreases fuel, 2, e, 0
  {
    assert U(e, Decls(env)) == U(e.body, Decls(env));
    forall id <- ctx.bare ensures OnceId(id, e.body, Decls(env)) { assert OnceId(id, e, Decls(env)); }
    Agree(p, ctx, fuel, e.body, env, fr);
  }

  lemma AgreeThen(p: Program, ctx: Ctx, fuel: nat, e: Expr, env: Env, fr: Frame)
    requires OkProgram(p) && CanRun(ctx, e, env, fr) && e.Then?
    ensures Agrees(ctx, Eval(p, fuel, e, env), Run(p, ctx, fuel, e, fr), env, fr, U(e, Decls(env)))
    decreases fuel, 2, e, 0
  {
    var scope := Decls(env);
    var u, u1, u2 := U(e, scope), U(e.first, scope), U(e.body, scope);
    OnceIsOnce(ctx, e, scope);
    forall id <- ctx.bare ensures OnceId(id, e.first, scope) && OnceId(id, e.body, scope) { assert OnceId(id, e, scope); }
    FitFirst(ctx, fr, u, u1, u2);
    Agree(p, ctx, fuel, e.first, env, fr);
    var o := Run(p, ctx, fuel, e.first, fr);
    if Eval(p, fuel, e.first, env).Val? {
      FitNext(ctx, fr, o.fr, u, u1, u2);
      Agree(p, ctx, fuel, e.body, env, o.fr);
      Chain(ctx, Eval(p, fuel, e.body, env), Run(p, ctx, fuel, e.body, o.fr), env, fr, o.fr, u, u1, u2);
    }
  }

  ghost function Plus(u1: Count, u2: Count): Count
    requires All(u1) && All(u2)
  {
    imap id: Id :: u1[id] + u2[id]
  }

  lemma IfParts(ctx: Ctx, e: Expr, scope: seq<Decl>)
    requires e.If? && Once(ctx, e, scope)
    ensures Once(ctx, e.cond, scope) && Once(ctx, e.yes, scope) && Once(ctx, e.no, scope) && AtMostOnce(ctx, U(e, scope))
    ensures var u2 := Plus(U(e.yes, scope), U(e.no, scope));
      Sum(U(e, scope), U(e.cond, scope), u2) && Sum(u2, U(e.yes, scope), U(e.no, scope)) && Sum(u2, U(e.no, scope), U(e.yes, scope))
  {
    OnceIsOnce(ctx, e, scope);
    forall id <- ctx.bare ensures OnceId(id, e.cond, scope) && OnceId(id, e.yes, scope) && OnceId(id, e.no, scope) {
      assert OnceId(id, e, scope);
    }
  }

  /** The rest of a run, whose part of the uses is `ub`, after a first part has used `u1`. */
  lemma RestAgrees<T>(ctx: Ctx, r: Res<T>, o: Out<T>, env: Env, fr: Frame, fr1: Frame, u: Count, u1: Count, u2: Count, ub: Count, uo: Count)
    requires Sum(u, u1, u2) && Sum(u2, ub, uo) && After(ctx, fr, fr1, u1) && Agrees(ctx, r, o, env, fr1, ub)
    ensures Agrees(ctx, r, o, env, fr, u)
  {
    More(ctx, r, o, env, fr1, u2, ub);
    Chain(ctx, r, o, env, fr, fr1, u, u1, u2);
  }

  lemma AgreeIf(p: Program, ctx: Ctx, fuel: nat, e: Expr, env: Env, fr: Frame)
    requires OkProgram(p) && CanRun(ctx, e, env, fr) && e.If?
    ensures Agrees(ctx, Eval(p, fuel, e, env), Run(p, ctx, fuel, e, fr), env, fr, U(e, Decls(env)))
    decreases fuel, 2, e, 0
  {
    var scope := Decls(env);
    var u, u1, ut, uu := U(e, scope), U(e.cond, scope), U(e.yes, scope), U(e.no, scope);
    var u2 := Plus(ut, uu);
    IfParts(ctx, e, scope);
    FitFirst(ctx, fr, u, u1, u2);
    Agree(p, ctx, fuel, e.cond, env, fr);
    var o := Run(p, ctx, fuel, e.cond, fr);
    if Eval(p, fuel, e.cond, env).Val? {
      FitNext(ctx, fr, o.fr, u, u1, u2);
      if Truthy(o.v) {
        FitFirst(ctx, o.fr, u2, ut, uu);
        Agree(p, ctx, fuel, e.yes, env, o.fr);
        RestAgrees(ctx, Eval(p, fuel, e.yes, env), Run(p, ctx, fuel, e.yes, o.fr), env, fr, o.fr, u, u1, u2, ut, uu);
      } else {
        FitFirst(ctx, o.fr, u2, uu, ut);
        Agree(p, ctx, fuel, e.no, env, o.fr);
        RestAgrees(ctx, Eval(p, fuel, e.no, env), Run(p, ctx, fuel, e.no, o.fr), env, fr, o.fr, u, u1, u2, uu, ut);
      }
    }
  }

  lemma AgreeMatch(p: Program, ctx: Ctx, fuel: nat, e: Expr, env: Env, fr: Frame)
    requires OkProgram(p) && CanRun(ctx, e, env, fr) && e.Match?
    ensures Agrees(ctx, Eval(p, fuel, e, env), Run(p, ctx, fuel, e, fr), env, fr, U(e, Decls(env)))
    decreases fuel, 2, e, 0
  {
    var scope := Decls(env);
    var u, u1, u2 := U(e, scope), U(e.scrutinee, scope), UArms(e.arms, scope);
    OnceIsOnce(ctx, e, scope);
    forall id <- ctx.bare ensures OnceId(id, e.scrutinee, scope) && OnceArmsId(id, e.arms, scope) { assert OnceId(id, e, scope); }
    FitFirst(ctx, fr, u, u1, u2);
    Agree(p, ctx, fuel, e.scrutinee, env, fr);
    var o := Run(p, ctx, fuel, e.scrutinee, fr);
    if Eval(p, fuel, e.scrutinee, env).Val? {
      IsGoodCode(p);
      EvalGood(p, fuel, e.scrutinee, env);
      FitNext(ctx, fr, o.fr, u, u1, u2);
      AgreeArms(p, ctx, fuel, o.v, e.arms, env, o.fr);
      Chain(ctx, EvalArms(p, fuel, o.v, e.arms, env), RunArms(p, ctx, fuel, o.v, e.arms, o.fr), env, fr, o.fr, u, u1, u2);
    }
  }

  /** A body in the scope of a pattern's binders. */
  lemma AgreeBody(p: Program, ctx: Ctx, fuel: nat, pat: Pat, v: V, b: Expr, env: Env, fr: Frame, u: Count)
    requires OkProgram(p) && Matches(pat, v) && Rel(env, fr) && (ctx.inFn ==> Unmarked(b))
    requires u == U(b, Decls(env) + PatDecls(pat)) && Fit(ctx, fr, u) && Once(ctx, b, Decls(env) + PatDecls(pat))
    requires FineUnder(b, pat, env) && GoodV(v)
    ensures Agrees(ctx, Eval(p, fuel, b, env + Binds(pat, v)), Leave(Run(p, ctx, fuel, b, fr + Full(Binds(pat, v))), |fr|), env, fr, u)
    decreases fuel, 2, b, 2
  {
    var more := Binds(pat, v);
    RelBinders(env, fr, more);
    FitBinders(ctx, fr, u, more);
    FineBody(b, pat, v, env);
    Agree(p, ctx, fuel, b, env + more, fr + Full(more));
    LeaveAgrees(ctx, Eval(p, fuel, b, env + more), Run(p, ctx, fuel, b, fr + Full(more)), env, fr, more, u);
  }

  lemma AgreeLet(p: Program, ctx: Ctx, fuel: nat, e: Expr, env: Env, fr: Frame)
    requires OkProgram(p) && CanRun(ctx, e, env, fr) && e.Let?
    ensures Agrees(ctx, Eval(p, fuel, e, env), Run(p, ctx, fuel, e, fr), env, fr, U(e, Decls(env)))
    decreases fuel, 2, e, 0
  {
    var scope := Decls(env);
    var inner := scope + PatDecls(e.pat);
    var u, u1, u2 := U(e, scope), U(e.rhs, scope), U(e.body, inner);
    OnceIsOnce(ctx, e, scope);
    forall id <- ctx.bare ensures OnceId(id, e.rhs, scope) && OnceId(id, e.body, inner) { assert OnceId(id, e, scope); }
    FitFirst(ctx, fr, u, u1, u2);
    LetFine(e, env);
    RhsCanRun(ctx, e, env, fr);
    Agree(p, ctx, fuel, e.rhs, env + Unknown(e.pat), fr + Unset(e.pat));
    var o := Run(p, ctx, fuel, e.rhs, fr + Unset(e.pat));
    RhsDone(p, ctx, fuel, e, env, fr, o);
    if Eval(p, fuel, e.rhs, env).Val? && Matches(e.pat, o.v) {
      var fr1, more := o.fr[..|fr|], Binds(e.pat, o.v);
      GrabsBinds(e.pat, o.v);
      FitNext(ctx, fr, fr1, u, u1, u2);
      AgreeBody(p, ctx, fuel, e.pat, o.v, e.body, env, fr1, u2);
      Chain(ctx, Eval(p, fuel, e.body, env + more), Leave(Run(p, ctx, fuel, e.body, fr1 + Full(more)), |fr1|), env, fr, fr1, u, u1, u2);
    }
  }

  lemma AgreeArgs(p: Program, ctx: Ctx, fuel: nat, es: Args, env: Env, fr: Frame)
    requires OkProgram(p) && Rel(env, fr) && Fit(ctx, fr, UArgs(es, Decls(env))) && OnceArgs(ctx, es, Decls(env)) && FineArgs(es, env)
    requires ctx.inFn ==> UnmarkedArgs(es)
    ensures Agrees(ctx, EvalArgs(p, fuel, es, env), RunArgs(p, ctx, fuel, es, fr), env, fr, UArgs(es, Decls(env)))
    decreases fuel, 2, es, 1
  {
    var scope := Decls(env);
    var u := UArgs(es, scope);
    if es.NoArgs? {
      NothingMoved(ctx, env, fr, u, u);
    } else {
      var u1, u2 := U(es.head, scope), UArgs(es.rest, scope);
      forall id <- ctx.bare ensures OnceId(id, es.head, scope) && OnceArgsId(id, es.rest, scope) && u[id] <= 1 {
        assert OnceArgsId(id, es, scope);
      }
      FitFirst(ctx, fr, u, u1, u2);
      Agree(p, ctx, fuel, es.head, env, fr);
      var o := Run(p, ctx, fuel, es.head, fr);
      if Eval(p, fuel, es.head, env).Val? {
        FitNext(ctx, fr, o.fr, u, u1, u2);
        AgreeArgs(p, ctx, fuel, es.rest, env, o.fr);
        Chain(ctx, EvalArgs(p, fuel, es.rest, env), RunArgs(p, ctx, fuel, es.rest, o.fr), env, fr, o.fr, u, u1, u2);
      }
    }
  }

  ghost function GuardCount(g: Guard, scope: seq<Decl>): Count { imap id: Id :: GuardUses(id, g, scope) }

  lemma ArmParts(arms: Arms, scope: seq<Decl>)
    requires arms.Arm?
    ensures var inner := scope + PatDecls(arms.pat);
      forall id: Id :: UArms(arms, scope)[id] == GuardCount(arms.guard, inner)[id] + U(arms.body, inner)[id] + UArms(arms.rest, scope)[id]
    ensures var inner := scope + PatDecls(arms.pat);
      forall id: Id :: GuardCount(arms.guard, inner)[id] == if arms.guard.NoGuard? then 0 else U(arms.guard.cond, inner)[id]
  {
    var inner := scope + PatDecls(arms.pat);
    forall id: Id ensures GuardUses(id, arms.guard, inner) == if arms.guard.NoGuard? then 0 else Uses(id, arms.guard.cond, inner) {
    }
  }

  lemma AgreeArms(p: Program, ctx: Ctx, fuel: nat, v: V, arms: Arms, env: Env, fr: Frame)
    requires OkProgram(p) && Rel(env, fr) && Fit(ctx, fr, UArms(arms, Decls(env))) && OnceArms(ctx, arms, Decls(env)) && FineArms(arms, env) && GoodV(v)
    requires ctx.inFn ==> UnmarkedArms(arms)
    ensures Agrees(ctx, EvalArms(p, fuel, v, arms, env), RunArms(p, ctx, fuel, v, arms, fr), env, fr, UArms(arms, Decls(env)))
    decreases fuel, 2, arms, 3
  {
    if arms.Arm? {
      if !Matches(arms.pat, v) {
        AgreeSkipped(p, ctx, fuel, v, arms, env, fr);
      } else if arms.guard.NoGuard? {
        AgreePlain(p, ctx, fuel, v, arms, env, fr);
      } else {
        AgreeGuarded(p, ctx, fuel, v, arms, env, fr);
      }
    }
  }

  lemma ArmOnce(ctx: Ctx, arms: Arms, scope: seq<Decl>)
    requires OnceArms(ctx, arms, scope) && arms.Arm?
    ensures Once(ctx, arms.body, scope + PatDecls(arms.pat)) && OnceArms(ctx, arms.rest, scope)
  {
    forall id <- ctx.bare ensures OnceId(id, arms.body, scope + PatDecls(arms.pat)) && OnceArmsId(id, arms.rest, scope) {
      assert OnceArmsId(id, arms, scope);
    }
  }

  lemma AgreeSkipped(p: Program, ctx: Ctx, fuel: nat, v: V, arms: Arms, env: Env, fr: Frame)
    requires OkProgram(p) && Rel(env, fr) && Fit(ctx, fr, UArms(arms, Decls(env))) && OnceArms(ctx, arms, Decls(env)) && FineArms(arms, env) && GoodV(v)
    requires (ctx.inFn ==> UnmarkedArms(arms)) && arms.Arm? && !Matches(arms.pat, v)
    ensures Agrees(ctx, EvalArms(p, fuel, v, arms, env), RunArms(p, ctx, fuel, v, arms, fr), env, fr, UArms(arms, Decls(env)))
    decreases fuel, 2, arms, 2
  {
    var scope := Decls(env);
    var inner := scope + PatDecls(arms.pat);
    var u, ub, ur := UArms(arms, scope), U(arms.body, inner), UArms(arms.rest, scope);
    ArmParts(arms, scope);
    ArmFine(arms, env);
    ArmOnce(ctx, arms, scope);
    FitFirst(ctx, fr, u, ur, Plus(GuardCount(arms.guard, inner), ub));
    AgreeArms(p, ctx, fuel, v, arms.rest, env, fr);
    More(ctx, EvalArms(p, fuel, v, arms.rest, env), RunArms(p, ctx, fuel, v, arms.rest, fr), env, fr, u, ur);
  }

  lemma AgreePlain(p: Program, ctx: Ctx, fuel: nat, v: V, arms: Arms, env: Env, fr: Frame)
    requires OkProgram(p) && Rel(env, fr) && Fit(ctx, fr, UArms(arms, Decls(env))) && OnceArms(ctx, arms, Decls(env)) && FineArms(arms, env) && GoodV(v)
    requires (ctx.inFn ==> UnmarkedArms(arms)) && arms.Arm? && Matches(arms.pat, v) && arms.guard.NoGuard?
    ensures Agrees(ctx, EvalArms(p, fuel, v, arms, env), RunArms(p, ctx, fuel, v, arms, fr), env, fr, UArms(arms, Decls(env)))
    decreases fuel, 2, arms, 2
  {
    var scope, more := Decls(env), Binds(arms.pat, v);
    var inner := scope + PatDecls(arms.pat);
    var u, ub, ur := UArms(arms, scope), U(arms.body, inner), UArms(arms.rest, scope);
    ArmParts(arms, scope);
    ArmFine(arms, env);
    ArmOnce(ctx, arms, scope);
    FitFirst(ctx, fr, u, ub, ur);
    AgreeBody(p, ctx, fuel, arms.pat, v, arms.body, env, fr, ub);
    More(ctx, Eval(p, fuel, arms.body, env + more), Leave(Run(p, ctx, fuel, arms.body, fr + Full(more)), |fr|), env, fr, u, ub);
  }

  lemma GuardOnce(ctx: Ctx, arms: Arms, scope: seq<Decl>)
    requires arms.Arm? && arms.guard.When? && OnceArms(ctx, arms, scope)
    ensures Once(ctx, arms.guard.cond, scope + PatDecls(arms.pat)) && AtMostOnce(ctx, UArms(arms, scope))
  {
    var inner := scope + PatDecls(arms.pat);
    ArmParts(arms, scope);
    forall id <- ctx.bare ensures OnceId(id, arms.guard.cond, inner) && UArms(arms, scope)[id] <= 1 {
      assert UArms(arms, scope)[id] == U(arms.guard.cond, inner)[id] + U(arms.body, inner)[id] + UArms(arms.rest, scope)[id];
      assert OnceArmsId(id, arms, scope);
    }
  }

  /** Under the binders the guard runs; then either the body or the next arms can. */
  lemma AgreeGuard(p: Program, ctx: Ctx, fuel: nat, v: V, arms: Arms, env: Env, fr: Frame)
    requires OkProgram(p) && Rel(env, fr) && Fit(ctx, fr, UArms(arms, Decls(env))) && OnceArms(ctx, arms, Decls(env)) && FineArms(arms, env) && GoodV(v)
    requires arms.Arm? && Matches(arms.pat, v) && arms.guard.When? && (ctx.inFn ==> Unmarked(arms.guard.cond))
    ensures var inner, more := Decls(env) + PatDecls(arms.pat), Binds(arms.pat, v);
      var o := Run(p, ctx, fuel, arms.guard.cond, fr + Full(more));
      && Decls(env + more) == inner
      && Agrees(ctx, Eval(p, fuel, arms.guard.cond, env + more), o, env + more, fr + Full(more), U(arms.guard.cond, inner))
      && Once(ctx, arms.body, inner) && OnceArms(ctx, arms.rest, Decls(env))
      && Fine(arms.body, env + more) && FineArms(arms.rest, env)
      && (Eval(p, fuel, arms.guard.cond, env + more).Val? ==>
        && Fit(ctx, o.fr, U(arms.body, inner)) && |fr| <= |o.fr|
        && Rel(env, o.fr[..|fr|]) && Fit(ctx, o.fr[..|fr|], UArms(arms.rest, Decls(env)))
        && After(ctx, fr, o.fr[..|fr|], U(arms.guard.cond, inner)))
    decreases fuel, 2, arms, 1
  {
    var scope, more, c := Decls(env), Binds(arms.pat, v), arms.guard.cond;
    var inner, env1, fr1 := scope + PatDecls(arms.pat), env + more, fr + Full(more);
    var u, ug, ub, ur := UArms(arms, scope), U(c, inner), U(arms.body, inner), UArms(arms.rest, scope);
    var u2 := Plus(ub, ur);
    ArmParts(arms, scope);
    ArmOnce(ctx, arms, scope);
    GuardOnce(ctx, arms, scope);
    RelBinders(env, fr, more);
    FitBinders(ctx, fr, u, more);
    ArmFine(arms, env);
    FineBody(c, arms.pat, v, env);
    FineBody(arms.body, arms.pat, v, env);
    FitFirst(ctx, fr1, u, ug, u2);
    Agree(p, ctx, fuel, c, env1, fr1);
    var o := Run(p, ctx, fuel, c, fr1);
    if Eval(p, fuel, c, env1).Val? {
      FitNext(ctx, fr1, o.fr, u, ug, u2);
      FitFirst(ctx, o.fr, u2, ub, ur);
      DropBinders(ctx, env, fr, more, o.fr, ug);
      FitNext(ctx, fr, o.fr[..|fr|], u, ug, u2);
      FitFirst(ctx, o.fr[..|fr|], u2, ur, ub);
    }
  }

  lemma AgreeGuarded(p: Program, ctx: Ctx, fuel: nat, v: V, arms: Arms, env: Env, fr: Frame)
    requires OkProgram(p) && Rel(env, fr) && Fit(ctx, fr, UArms(arms, Decls(env))) && OnceArms(ctx, arms, Decls(env)) && FineArms(arms, env) && GoodV(v)
    requires ctx.inFn ==> UnmarkedArms(arms)
    requires arms.Arm? && Matches(arms.pat, v) && arms.guard.When?
    ensures Agrees(ctx, EvalArms(p, fuel, v, arms, env), RunArms(p, ctx, fuel, v, arms, fr), env, fr, UArms(arms, Decls(env)))
    decreases fuel, 2, arms, 2
  {
    var scope, more, c := Decls(env), Binds(arms.pat, v), arms.guard.cond;
    var inner, env1, fr1 := scope + PatDecls(arms.pat), env + more, fr + Full(more);
    var u, ug, ub, ur := UArms(arms, scope), U(c, inner), U(arms.body, inner), UArms(arms.rest, scope);
    var u2 := Plus(ub, ur);
    ArmParts(arms, scope);
    AgreeGuard(p, ctx, fuel, v, arms, env, fr);
    var o, rc := Run(p, ctx, fuel, c, fr1), Eval(p, fuel, c, env1);
    if rc.Val? && Truthy(o.v) {
      AgreeTaken(p, ctx, fuel, v, arms, env, fr, o.fr, u2);
    } else if rc.Val? {
      AgreeNext(p, ctx, fuel, v, arms, env, fr, o.fr[..|fr|], u2);
    }
  }

  /** The guard held: the body runs in what the guard left. */
  lemma AgreeTaken(p: Program, ctx: Ctx, fuel: nat, v: V, arms: Arms, env: Env, fr: Frame, fr1: Frame, u2: Count)
    requires OkProgram(p) && Rel(env, fr) && arms.Arm? && Matches(arms.pat, v) && arms.guard.When? && (ctx.inFn ==> Unmarked(arms.body))
    requires var inner, more := Decls(env) + PatDecls(arms.pat), Binds(arms.pat, v);
      && Decls(env + more) == inner && Rel(env + more, fr1) && Fit(ctx, fr1, U(arms.body, inner)) && Once(ctx, arms.body, inner)
      && Fine(arms.body, env + more) && After(ctx, fr + Full(more), fr1, U(arms.guard.cond, inner))
      && Sum(UArms(arms, Decls(env)), U(arms.guard.cond, inner), u2) && forall id: Id :: U(arms.body, inner)[id] <= u2[id]
    ensures var more := Binds(arms.pat, v);
      Agrees(ctx, Eval(p, fuel, arms.body, env + more), Leave(Run(p, ctx, fuel, arms.body, fr1), |fr|), env, fr, UArms(arms, Decls(env)))
    decreases fuel, 2, arms, 1
  {
    var more := Binds(arms.pat, v);
    var inner := Decls(env) + PatDecls(arms.pat);
    Agree(p, ctx, fuel, arms.body, env + more, fr1);
    TakenAgrees(ctx, Eval(p, fuel, arms.body, env + more), Run(p, ctx, fuel, arms.body, fr1), env, fr, more, fr1,
      UArms(arms, Decls(env)), U(arms.guard.cond, inner), U(arms.body, inner), u2);
  }

  /** The guard did not hold: the next arms run. */
  lemma AgreeNext(p: Program, ctx: Ctx, fuel: nat, v: V, arms: Arms, env: Env, fr: Frame, back: Frame, u2: Count)
    requires OkProgram(p) && arms.Arm? && arms.guard.When? && (ctx.inFn ==> UnmarkedArms(arms.rest)) && GoodV(v)
    requires Rel(env, back) && Fit(ctx, back, UArms(arms.rest, Decls(env))) && OnceArms(ctx, arms.rest, Decls(env)) && FineArms(arms.rest, env)
    requires var inner := Decls(env) + PatDecls(arms.pat);
      && After(ctx, fr, back, U(arms.guard.cond, inner)) && Sum(UArms(arms, Decls(env)), U(arms.guard.cond, inner), u2)
      && Sum(u2, UArms(arms.rest, Decls(env)), U(arms.body, inner))
    ensures Agrees(ctx, EvalArms(p, fuel, v, arms.rest, env), RunArms(p, ctx, fuel, v, arms.rest, back), env, fr, UArms(arms, Decls(env)))
    decreases fuel, 2, arms, 1
  {
    var inner := Decls(env) + PatDecls(arms.pat);
    AgreeArms(p, ctx, fuel, v, arms.rest, env, back);
    RestAgrees(ctx, EvalArms(p, fuel, v, arms.rest, env), RunArms(p, ctx, fuel, v, arms.rest, back), env, fr, back,
      UArms(arms, Decls(env)), U(arms.guard.cond, inner), u2, UArms(arms.rest, Decls(env)), U(arms.body, inner));
  }

  ghost function HitCount(f: Name, scope: seq<Decl>): Count { imap id: Id :: Hit(id, f, scope) }

  lemma CallParts(ctx: Ctx, e: Expr, scope: seq<Decl>)
    requires e.Call? && Once(ctx, e, scope)
    ensures OnceArgs(ctx, e.args, scope) && AtMostOnce(ctx, U(e, scope))
    ensures Sum(U(e, scope), U(Var(e.callee), scope), UArgs(e.args, scope))
  {
    OnceIsOnce(ctx, e, scope);
    forall id <- ctx.bare ensures OnceArgsId(id, e.args, scope) { assert OnceId(id, e, scope); }
    assert HitCount(e.callee, scope) == U(Var(e.callee), scope);
  }

  lemma AgreeCall(p: Program, ctx: Ctx, fuel: nat, e: Expr, env: Env, fr: Frame)
    requires OkProgram(p) && CanRun(ctx, e, env, fr) && e.Call?
    ensures Agrees(ctx, Eval(p, fuel, e, env), Run(p, ctx, fuel, e, fr), env, fr, U(e, Decls(env)))
    decreases fuel, 2, e, 0
  {
    var scope := Decls(env);
    var u, u1, u2 := U(e, scope), U(Var(e.callee), scope), UArgs(e.args, scope);
    SameDecls(env, fr);
    CallParts(ctx, e, scope);
    FitFirst(ctx, fr, u, u1, u2);
    ReadAgrees(p, ctx, e.callee, env, fr);
    NothingMoved(ctx, env, fr, u, u1);
    var o := if Innermost(scope, e.callee) >= 0 then Read(p, ctx, e.callee, fr) else Done(FunRef(e.callee), fr);
    if o.Done? {
      FitNext(ctx, fr, o.fr, u, u1, u2);
      AgreeArgs(p, ctx, fuel, e.args, env, o.fr);
      var r, o2 := EvalArgs(p, fuel, e.args, env), RunArgs(p, ctx, fuel, e.args, o.fr);
      Chain(ctx, r, o2, env, fr, o.fr, u, u1, u2);
      if r.Val? {
        IsGoodCode(p);
        ArgsGood(p, fuel, e.args, env);
        AgreeApply(p, fuel, o.v, o2.v, o2.fr);
      }
    }
  }

  /** The same, for a result that is handed back to a caller's frame. */
  predicate Returns(r: Res<V>, o: Out<V>, fr: Frame) {
    match r
    case Val(v) => o == Done(v, fr)
    case Panic => o == Panicked
    case Timeout => o == Hung
    case Mismatch => true
  }

  lemma FullFrame(ctx: Ctx, env: Env, u: Count)
    requires All(u)
    ensures Rel(env, Full(env)) && Fit(ctx, Full(env), u)
  {
    forall k | 0 <= k < |env| ensures SameSlot(env[k], Full(env)[k]) && OkSlot(ctx, Full(env)[k], u[Full(env)[k].decl.id]) {
    }
  }

  lemma AgreeApply(p: Program, fuel: nat, f: V, vs: seq<V>, fr: Frame)
    requires OkProgram(p) && GoodV(f) && AllGood(vs)
    ensures Returns(Apply(p, fuel, f, vs), RunApply(p, fuel, f, vs, fr), fr)
    decreases fuel, 1
  {
    match f
    case FunRef(g) =>
      if g in p.fns {
        assert Apply(p, fuel, f, vs) == CallFn(p, fuel, p.fns[g], vs);
        if |vs| == |p.fns[g].params| { AgreeFn(p, fuel, g, vs); }
      }
    case Closure(ps, b, env) =>
      if |ps| == |vs| && fuel > 0 {
        var env1 := Zip(Shadowed(ps), vs) + env;
        FullFrame(InLambda, env1, U(b, Decls(env1)));
        assert forall id <- Ids(Decls(env1)) :: id == NoId;
        Agree(p, InLambda, fuel - 1, b, env1, Full(env1));
      }
    case _ =>
  }

  /** No jump leaves a function. */
  lemma {:induction false} NeverJumps(p: Program, fuel: nat, f: Name, fr: Frame)
    requires f in p.fns
    ensures !RunFn(p, fuel, f, fr).Jump?
    decreases fuel
  {
    if fuel > 0 {
      var fn := p.fns[f];
      var o := Run(p, Ctx(true, fn.params, Bare(fn)), fuel - 1, Mark([], fn.body, f, |fn.params|), fr);
      if o.Jump? { NeverJumps(p, fuel - 1, f, o.fr); }
    }
  }

  /** What the emitted function does with `vs` and what a call of the function means. */
  predicate FnAgrees(p: Program, fuel: nat, f: Name, vs: seq<V>)
    requires f in p.fns && |vs| == |p.fns[f].params|
  {
    var o := RunFn(p, fuel, f, Full(Zip(p.fns[f].params, vs)));
    !o.Jump? && Returns(CallFn(p, fuel, p.fns[f], vs), o, if o.Done? then o.fr else [])
  }

  function BodyMeans(p: Program, fuel: nat, f: Name, vs: seq<V>): Res<V>
    requires f in p.fns && |vs| == |p.fns[f].params|
  {
    Eval(p, fuel, p.fns[f].body, Zip(p.fns[f].params, vs))
  }

  function BodyRuns(p: Program, fuel: nat, f: Name, vs: seq<V>): Out<V>
    requires f in p.fns && |vs| == |p.fns[f].params|
  {
    var fn := p.fns[f];
    Run(p, FnCtx(fn), fuel, Mark([], fn.body, f, |fn.params|), Full(Zip(fn.params, vs)))
  }

  /** A body that ends without a jump ends the call. */
  lemma EndsCall(p: Program, fuel: nat, f: Name, vs: seq<V>)
    requires f in p.fns && |vs| == |p.fns[f].params| && fuel > 0 && !BodyRuns(p, fuel - 1, f, vs).Jump?
    requires TailAgrees(p, fuel - 1, p.fns[f], BodyMeans(p, fuel - 1, f, vs), BodyRuns(p, fuel - 1, f, vs))
    ensures FnAgrees(p, fuel, f, vs)
  {
    assert RunFn(p, fuel, f, Full(Zip(p.fns[f].params, vs))) == BodyRuns(p, fuel - 1, f, vs);
  }

  /** A body that jumps goes on as the call with the values that it jumped with. */
  lemma JumpsOn(p: Program, fuel: nat, f: Name, vs: seq<V>, vs1: seq<V>)
    requires f in p.fns && |vs| == |p.fns[f].params| == |vs1| && fuel > 0
    requires BodyRuns(p, fuel - 1, f, vs) == Jump(Full(Zip(p.fns[f].params, vs1)))
    requires BodyMeans(p, fuel - 1, f, vs) == CallFn(p, fuel - 1, p.fns[f], vs1)
    requires FnAgrees(p, fuel - 1, f, vs1)
    ensures FnAgrees(p, fuel, f, vs)
  {
    assert RunFn(p, fuel, f, Full(Zip(p.fns[f].params, vs))) == RunFn(p, fuel - 1, f, Full(Zip(p.fns[f].params, vs1)));
  }

  /** The main theorem: a call of the emitted function does what a call of the function means, if no
      `let` on the way meets a value that its pattern does not match. It never uses a variable whose
      reference has moved, through any number of jumps. */
  lemma AgreeFn(p: Program, fuel: nat, f: Name, vs: seq<V>)
    requires OkProgram(p) && f in p.fns && |vs| == |p.fns[f].params| && AllGood(vs)
    ensures FnAgrees(p, fuel, f, vs)
    decreases fuel, 0
  {
    if fuel > 0 {
      var fn := p.fns[f];
      EntryRuns(p, f, vs);
      AgreeTail(p, f, fuel - 1, [], fn.body, Zip(fn.params, vs), Full(Zip(fn.params, vs)));
      var r, o := BodyMeans(p, fuel - 1, f, vs), BodyRuns(p, fuel - 1, f, vs);
      if !o.Jump? {
        EndsCall(p, fuel, f, vs);
      } else if r == Mismatch {
        NeverJumps(p, fuel, f, Full(Zip(fn.params, vs)));
      } else {
        var vs1 :| JumpsWith(p, fuel - 1, fn, r, o.fr, vs1);
        AgreeFn(p, fuel - 1, f, vs1);
        JumpsOn(p, fuel, f, vs, vs1);
      }
    }
  }

  /** At the entry of a function everything is ready for its body. */
  lemma EntryRuns(p: Program, f: Name, vs: seq<V>)
    requires OkProgram(p) && f in p.fns && |vs| == |p.fns[f].params| && AllGood(vs)
    ensures var env := Zip(p.fns[f].params, vs); InTail(p, f, [], p.fns[f].body, env, Full(env))
  {
    var fn := p.fns[f];
    var env, ctx := Zip(fn.params, vs), FnCtx(fn);
    FullFrame(ctx, env, U(fn.body, fn.params));
    forall id <- ctx.bare ensures OnceId(id, fn.body, fn.params) { }
    assert Decls(env)[..|fn.params|] == fn.params;
  }

  // ---------- tail position ----------

  predicate JumpsWith(p: Program, fuel: nat, fn: Fn, r: Res<V>, fr: Frame, vs: seq<V>) {
    |vs| == |fn.params| && AllGood(vs) && fr == Full(Zip(fn.params, vs)) && r == CallFn(p, fuel, fn, vs)
  }

  /** A jump stands for the call that it replaced. */
  ghost predicate TailAgrees(p: Program, fuel: nat, fn: Fn, r: Res<V>, o: Out<V>) {
    r == Mismatch || match o
    case Done(v, _) => r == Val(v)
    case Panicked => r == Panic
    case Hung => r == Timeout
    case Crash => false
    case Jump(fr) => exists vs :: JumpsWith(p, fuel, fn, r, fr, vs)
  }

  function FnCtx(fn: Fn): Ctx {
    Ctx(true, fn.params, Bare(fn))
  }

  /** The parameters are the outermost variables, and the others have names from `shadows`. */
  predicate InFunction(fn: Fn, env: Env, shadows: seq<Name>) {
    && |fn.params| <= |env| && Decls(env)[..|fn.params|] == fn.params
    && forall k :: |fn.params| <= k < |env| ==> env[k].decl.name in shadows
  }

  /** Only a bare read leaves a variable unset. */
  predicate Clean(ctx: Ctx, fr: Frame) {
    forall k :: 0 <= k < |fr| && fr[k].val.None? ==> fr[k].decl.id in ctx.bare
  }

  lemma StaysClean(ctx: Ctx, fr: Frame, fr1: Frame, u: Count)
    requires Clean(ctx, fr) && After(ctx, fr, fr1, u)
    ensures Clean(ctx, fr1)
  {
    forall k | 0 <= k < |fr1| && fr1[k].val.None? ensures fr1[k].decl.id in ctx.bare {
      assert MovedSlot(ctx, fr[k], fr1[k], u[fr[k].decl.id]);
    }
  }

  /** What is needed in tail position: a call is marked only if no parameter has the name of the
      function, and no name of a parameter is bound again before a marked call. */
  ghost predicate InTail(p: Program, f: Name, shadows: seq<Name>, e: Expr, env: Env, fr: Frame)
    requires f in p.fns
  {
    && CanRun(FnCtx(p.fns[f]), e, env, fr) && Clean(FnCtx(p.fns[f]), fr)
    && InFunction(p.fns[f], env, shadows) && NoCapture(shadows, e, f, p.fns[f].params)
    && (Walk(shadows, e, f, |p.fns[f].params|) ==> f !in Names(p.fns[f].params))
  }

  lemma AgreeTail(p: Program, f: Name, fuel: nat, shadows: seq<Name>, e: Expr, env: Env, fr: Frame)
    requires OkProgram(p) && f in p.fns && InTail(p, f, shadows, e, env, fr)
    ensures TailAgrees(p, fuel, p.fns[f], Eval(p, fuel, e, env), Run(p, FnCtx(p.fns[f]), fuel, Mark(shadows, e, f, |p.fns[f].params|), fr))
    decreases fuel, 2, e, 4
  {
    var fn := p.fns[f];
    match e
    case Call(g, args, _) =>
      if IsSelfCall(shadows, g, args, f, |fn.params|) {
        AgreeGoto(p, f, fuel, shadows, e, env, fr);
      } else {
        Agree(p, FnCtx(fn), fuel, e, env, fr);
      }
    case If(_, _, _) => AgreeTailIf(p, f, fuel, shadows, e, env, fr);
    case Match(_, _) => AgreeTailMatch(p, f, fuel, shadows, e, env, fr);
    case Let(_, _, _) => AgreeTailLet(p, f, fuel, shadows, e, env, fr);
    case Then(_, _) => AgreeTailThen(p, f, fuel, shadows, e, env, fr);
    case Block(_) => AgreeTailBlock(p, f, fuel, shadows, e, env, fr);
    case _ => Agree(p, FnCtx(fn), fuel, e, env, fr);
  }

  lemma AgreeTailBlock(p: Program, f: Name, fuel: nat, shadows: seq<Name>, e: Expr, env: Env, fr: Frame)
    requires OkProgram(p) && f in p.fns && InTail(p, f, shadows, e, env, fr) && e.Block?
    ensures TailAgrees(p, fuel, p.fns[f], Eval(p, fuel, e, env), Run(p, FnCtx(p.fns[f]), fuel, Mark(shadows, e, f, |p.fns[f].params|), fr))
    decreases fuel, 2, e, 3
  {
    var ctx, scope := FnCtx(p.fns[f]), Decls(env);
    assert U(e, scope) == U(e.body, scope);
    forall id <- ctx.bare ensures OnceId(id, e.body, scope) { assert OnceId(id, e, scope); }
    AgreeTail(p, f, fuel, shadows, e.body, env, fr);
  }

  lemma AgreeTailThen(p: Program, f: Name, fuel: nat, shadows: seq<Name>, e: Expr, env: Env, fr: Frame)
    requires OkProgram(p) && f in p.fns && InTail(p, f, shadows, e, env, fr) && e.Then?
    ensures TailAgrees(p, fuel, p.fns[f], Eval(p, fuel, e, env), Run(p, FnCtx(p.fns[f]), fuel, Mark(shadows, e, f, |p.fns[f].params|), fr))
    decreases fuel, 2, e, 3
  {
    var ctx, scope := FnCtx(p.fns[f]), Decls(env);
    var u, u1, u2 := U(e, scope), U(e.first, scope), U(e.body, scope);
    OnceIsOnce(ctx, e, scope);
    forall id <- ctx.bare ensures OnceId(id, e.first, scope) && OnceId(id, e.body, scope) { assert OnceId(id, e, scope); }
    FitFirst(ctx, fr, u, u1, u2);
    Agree(p, ctx, fuel, e.first, env, fr);
    var o := Run(p, ctx, fuel, e.first, fr);
    if Eval(p, fuel, e.first, env).Val? {
      StaysClean(ctx, fr, o.fr, u1);
      FitNext(ctx, fr, o.fr, u, u1, u2);
      AgreeTail(p, f, fuel, shadows, e.body, env, o.fr);
    }
  }

  lemma AgreeTailIf(p: Program, f: Name, fuel: nat, shadows: seq<Name>, e: Expr, env: Env, fr: Frame)
    requires OkProgram(p) && f in p.fns && InTail(p, f, shadows, e, env, fr) && e.If?
    ensures TailAgrees(p, fuel, p.fns[f], Eval(p, fuel, e, env), Run(p, FnCtx(p.fns[f]), fuel, Mark(shadows, e, f, |p.fns[f].params|), fr))
    decreases fuel, 2, e, 3
  {
    var ctx, scope := FnCtx(p.fns[f]), Decls(env);
    var u, u1, ut, uu := U(e, scope), U(e.cond, scope), U(e.yes, scope), U(e.no, scope);
    IfParts(ctx, e, scope);
    FitFirst(ctx, fr, u, u1, Plus(ut, uu));
    Agree(p, ctx, fuel, e.cond, env, fr);
    var o := Run(p, ctx, fuel, e.cond, fr);
    if Eval(p, fuel, e.cond, env).Val? {
      StaysClean(ctx, fr, o.fr, u1);
      FitNext(ctx, fr, o.fr, u, u1, Plus(ut, uu));
      if Truthy(o.v) {
        FitFirst(ctx, o.fr, Plus(ut, uu), ut, uu);
        AgreeTail(p, f, fuel, shadows, e.yes, env, o.fr);
      } else {
        FitFirst(ctx, o.fr, Plus(ut, uu), uu, ut);
        AgreeTail(p, f, fuel, shadows, e.no, env, o.fr);
      }
    }
  }

  lemma AgreeTailMatch(p: Program, f: Name, fuel: nat, shadows: seq<Name>, e: Expr, env: Env, fr: Frame)
    requires OkProgram(p) && f in p.fns && InTail(p, f, shadows, e, env, fr) && e.Match?
    ensures TailAgrees(p, fuel, p.fns[f], Eval(p, fuel, e, env), Run(p, FnCtx(p.fns[f]), fuel, Mark(shadows, e, f, |p.fns[f].params|), fr))
    decreases fuel, 2, e, 3
  {
    var ctx, scope := FnCtx(p.fns[f]), Decls(env);
    var u, u1, u2 := U(e, scope), U(e.scrutinee, scope), UArms(e.arms, scope);
    OnceIsOnce(ctx, e, scope);
    forall id <- ctx.bare ensures OnceId(id, e.scrutinee, scope) && OnceArmsId(id, e.arms, scope) { assert OnceId(id, e, scope); }
    FitFirst(ctx, fr, u, u1, u2);
    Agree(p, ctx, fuel, e.scrutinee, env, fr);
    var o := Run(p, ctx, fuel, e.scrutinee, fr);
    if Eval(p, fuel, e.scrutinee, env).Val? {
      IsGoodCode(p);
      EvalGood(p, fuel, e.scrutinee, env);
      StaysClean(ctx, fr, o.fr, u1);
      FitNext(ctx, fr, o.fr, u, u1, u2);
      AgreeTailArms(p, f, fuel, shadows, o.v, e.arms, env, o.fr);
    }
  }

  /** Under the binders of a pattern. */
  lemma AgreeTailBody(p: Program, f: Name, fuel: nat, shadows: seq<Name>, pat: Pat, v: V, b: Expr, env: Env, fr: Frame)
    requires OkProgram(p) && f in p.fns && Matches(pat, v) && Rel(env, fr) && Unmarked(b)
    requires var u := U(b, Decls(env) + PatDecls(pat)); Fit(FnCtx(p.fns[f]), fr, u)
    requires Once(FnCtx(p.fns[f]), b, Decls(env) + PatDecls(pat)) && InFunction(p.fns[f], env, shadows)
    requires NoCapture(shadows + Names(PatDecls(pat)), b, f, p.fns[f].params) && Clean(FnCtx(p.fns[f]), fr)
    requires Walk(shadows + Names(PatDecls(pat)), b, f, |p.fns[f].params|) ==> f !in Names(p.fns[f].params)
    requires FineUnder(b, pat, env) && GoodV(v)
    ensures TailAgrees(p, fuel, p.fns[f], Eval(p, fuel, b, env + Binds(pat, v)),
              Leave(Run(p, FnCtx(p.fns[f]), fuel, Mark(shadows + Names(PatDecls(pat)), b, f, |p.fns[f].params|), fr + Full(Binds(pat, v))), |fr|))
    decreases fuel, 2, b, 5
  {
    var more := Binds(pat, v);
    RelBinders(env, fr, more);
    FitBinders(FnCtx(p.fns[f]), fr, U(b, Decls(env) + PatDecls(pat)), more);
    FineBody(b, pat, v, env);
    StillInFunction(p.fns[f], env, shadows, more);
    AgreeTail(p, f, fuel, shadows + Names(PatDecls(pat)), b, env + more, fr + Full(more));
    LeavesTail(p, fuel, p.fns[f], Eval(p, fuel, b, env + more),
      Run(p, FnCtx(p.fns[f]), fuel, Mark(shadows + Names(PatDecls(pat)), b, f, |p.fns[f].params|), fr + Full(more)), |fr|);
  }

  /** Leaving a block does not change where a tail ends. */
  lemma LeavesTail(p: Program, fuel: nat, fn: Fn, r: Res<V>, o: Out<V>, n: nat)
    requires TailAgrees(p, fuel, fn, r, o)
    ensures TailAgrees(p, fuel, fn, r, Leave(o, n))
  {
  }

  lemma StillInFunction(fn: Fn, env: Env, shadows: seq<Name>, more: Env)
    requires InFunction(fn, env, shadows)
    ensures InFunction(fn, env + more, shadows + Names(Decls(more)))
  {
    forall k | |fn.params| <= k < |env + more| ensures (env + more)[k].decl.name in shadows + Names(Decls(more)) {
      if k >= |env| { assert Names(Decls(more))[k - |env|] == (env + more)[k].decl.name; }
    }
    forall k | 0 <= k < |fn.params| ensures Decls(env + more)[k] == fn.params[k] {
      assert Decls(env)[..|fn.params|][k] == fn.params[k];
    }
  }

  lemma AgreeTailLet(p: Program, f: Name, fuel: nat, shadows: seq<Name>, e: Expr, env: Env, fr: Frame)
    requires OkProgram(p) && f in p.fns && InTail(p, f, shadows, e, env, fr) && e.Let?
    ensures TailAgrees(p, fuel, p.fns[f], Eval(p, fuel, e, env), Run(p, FnCtx(p.fns[f]), fuel, Mark(shadows, e, f, |p.fns[f].params|), fr))
    decreases fuel, 2, e, 3
  {
    var ctx, scope := FnCtx(p.fns[f]), Decls(env);
    var inner := scope + PatDecls(e.pat);
    var u, u1, u2 := U(e, scope), U(e.rhs, scope), U(e.body, inner);
    OnceIsOnce(ctx, e, scope);
    forall id <- ctx.bare ensures OnceId(id, e.rhs, scope) && OnceId(id, e.body, inner) { assert OnceId(id, e, scope); }
    FitFirst(ctx, fr, u, u1, u2);
    LetFine(e, env);
    RhsCanRun(ctx, e, env, fr);
    Agree(p, ctx, fuel, e.rhs, env + Unknown(e.pat), fr + Unset(e.pat));
    var o := Run(p, ctx, fuel, e.rhs, fr + Unset(e.pat));
    RhsDone(p, ctx, fuel, e, env, fr, o);
    if Eval(p, fuel, e.rhs, env).Val? && Matches(e.pat, o.v) {
      var fr1 := o.fr[..|fr|];
      GrabsBinds(e.pat, o.v);
      StaysClean(ctx, fr, fr1, u1);
      FitNext(ctx, fr, fr1, u, u1, u2);
      AgreeTailBody(p, f, fuel, shadows, e.pat, o.v, e.body, env, fr1);
    }
  }

  lemma AgreeTailArms(p: Program, f: Name, fuel: nat, shadows: seq<Name>, v: V, arms: Arms, env: Env, fr: Frame)
    requires OkProgram(p) && f in p.fns && Rel(env, fr) && UnmarkedArms(arms)
    requires Fit(FnCtx(p.fns[f]), fr, UArms(arms, Decls(env))) && OnceArms(FnCtx(p.fns[f]), arms, Decls(env)) && FineArms(arms, env) && GoodV(v)
    requires InFunction(p.fns[f], env, shadows) && NoCaptureArms(shadows, arms, f, p.fns[f].params)
    requires Clean(FnCtx(p.fns[f]), fr) && (WalkArms(shadows, arms, f, |p.fns[f].params|) ==> f !in Names(p.fns[f].params))
    ensures TailAgrees(p, fuel, p.fns[f], EvalArms(p, fuel, v, arms, env),
              RunArms(p, FnCtx(p.fns[f]), fuel, v, MarkArms(shadows, arms, f, |p.fns[f].params|), fr))
    decreases fuel, 2, arms, 5
  {
    if arms.Arm? {
      var ctx, scope := FnCtx(p.fns[f]), Decls(env);
      var inner := scope + PatDecls(arms.pat);
      var u, ub, ur := UArms(arms, scope), U(arms.body, inner), UArms(arms.rest, scope);
      ArmParts(arms, scope);
      ArmFine(arms, env);
      forall id <- ctx.bare ensures OnceId(id, arms.body, inner) && OnceArmsId(id, arms.rest, scope) {
        assert OnceArmsId(id, arms, scope);
      }
      if !Matches(arms.pat, v) {
        FitFirst(ctx, fr, u, ur, Plus(GuardCount(arms.guard, inner), ub));
        AgreeTailArms(p, f, fuel, shadows, v, arms.rest, env, fr);
      } else if arms.guard.NoGuard? {
        FitFirst(ctx, fr, u, ub, ur);
        AgreeTailBody(p, f, fuel, shadows, arms.pat, v, arms.body, env, fr);
      } else {
        AgreeTailGuarded(p, f, fuel, shadows, v, arms, env, fr);
      }
    }
  }

  lemma AgreeTailGuarded(p: Program, f: Name, fuel: nat, shadows: seq<Name>, v: V, arms: Arms, env: Env, fr: Frame)
    requires OkProgram(p) && f in p.fns && Rel(env, fr) && UnmarkedArms(arms)
    requires Fit(FnCtx(p.fns[f]), fr, UArms(arms, Decls(env))) && OnceArms(FnCtx(p.fns[f]), arms, Decls(env)) && FineArms(arms, env) && GoodV(v)
    requires InFunction(p.fns[f], env, shadows) && NoCaptureArms(shadows, arms, f, p.fns[f].params)
    requires Clean(FnCtx(p.fns[f]), fr) && (WalkArms(shadows, arms, f, |p.fns[f].params|) ==> f !in Names(p.fns[f].params))
    requires arms.Arm? && Matches(arms.pat, v) && arms.guard.When?
    ensures TailAgrees(p, fuel, p.fns[f], EvalArms(p, fuel, v, arms, env),
              RunArms(p, FnCtx(p.fns[f]), fuel, v, MarkArms(shadows, arms, f, |p.fns[f].params|), fr))
    decreases fuel, 2, arms, 4
  {
    var ctx, more := FnCtx(p.fns[f]), Binds(arms.pat, v);
    AgreeGuard(p, ctx, fuel, v, arms, env, fr);
    var o, rc := Run(p, ctx, fuel, arms.guard.cond, fr + Full(more)), Eval(p, fuel, arms.guard.cond, env + more);
    if rc.Val? && Truthy(o.v) {
      StillInFunction(p.fns[f], env, shadows, more);
      StaysClean(ctx, fr + Full(more), o.fr, U(arms.guard.cond, Decls(env) + PatDecls(arms.pat)));
      AgreeTail(p, f, fuel, shadows + Names(PatDecls(arms.pat)), arms.body, env + more, o.fr);
      LeavesTail(p, fuel, p.fns[f], Eval(p, fuel, arms.body, env + more),
        Run(p, ctx, fuel, Mark(shadows + Names(PatDecls(arms.pat)), arms.body, f, |p.fns[f].params|), o.fr), |fr|);
    } else if rc.Val? {
      StaysClean(ctx, fr, o.fr[..|fr|], U(arms.guard.cond, Decls(env) + PatDecls(arms.pat)));
      AgreeTailArms(p, f, fuel, shadows, v, arms.rest, env, o.fr[..|fr|]);
    }
  }

  // ---------- the jump ----------

  /** C finds the parameter under its name. */
  lemma {:induction false} FindsParam(scope: seq<Decl>, params: seq<Decl>, j: nat)
    requires j < |params| <= |scope| && scope[..|params|] == params && DistinctNames(params)
    requires forall k :: |params| <= k < |scope| ==> scope[k].name != params[j].name
    ensures Innermost(scope, params[j].name) == j
  {
    var k := Innermost(scope, params[j].name);
    assert scope[j] == scope[..|params|][j] == params[j];
    assert forall i :: 0 <= i < |params| ==> scope[i] == scope[..|params|][i];
  }

  /** Each parameter gets its new value. */
  lemma {:induction false} RebindsAll(fr: Frame, params: seq<Decl>, rest: seq<Decl>, vs: seq<V>, done: nat)
    requires |params| == |vs| && done <= |params| <= |fr| && FrameDecls(fr)[..|params|] == params && DistinctNames(params)
    requires forall k :: |params| <= k < |fr| ==> fr[k].decl !in params && forall j :: 0 <= j < |params| ==> fr[k].decl.name != params[j].name
    requires forall k :: 0 <= k < done ==> fr[k].val == Some(vs[k])
    requires rest == params[done..]
    ensures Rebind(fr, rest, vs[done..])[..|params|] == Full(Zip(params, vs))
    decreases |params| - done
  {
    if done < |params| {
      FindsParam(FrameDecls(fr), params, done);
      var fr1 := fr[done := Slot(fr[done].decl, Some(vs[done]))];
      assert FrameDecls(fr1) == FrameDecls(fr);
      RebindsAll(fr1, params, rest[1..], vs, done + 1);
      assert vs[done..][1..] == vs[done + 1..];
    } else {
      forall k | 0 <= k < |params| ensures fr[k] == Full(Zip(params, vs))[k] {
        assert FrameDecls(fr)[..|params|][k] == params[k];
      }
    }
  }

  lemma {:induction false} ArgsLength(p: Program, fuel: nat, es: Args, env: Env)
    ensures var r := EvalArgs(p, fuel, es, env); r.Val? ==> |r.v| == Length(es)
    decreases es
  {
    if es.Arg? { ArgsLength(p, fuel, es.rest, env); }
  }

  lemma AgreeGoto(p: Program, f: Name, fuel: nat, shadows: seq<Name>, e: Expr, env: Env, fr: Frame)
    requires OkProgram(p) && f in p.fns && InTail(p, f, shadows, e, env, fr)
    requires e.Call? && IsSelfCall(shadows, e.callee, e.args, f, |p.fns[f].params|)
    ensures TailAgrees(p, fuel, p.fns[f], Eval(p, fuel, e, env), Run(p, FnCtx(p.fns[f]), fuel, Mark(shadows, e, f, |p.fns[f].params|), fr))
    decreases fuel, 2, e, 3
  {
    var fn, ctx, scope := p.fns[f], FnCtx(p.fns[f]), Decls(env);
    var u, u1 := U(e, scope), UArgs(e.args, scope);
    forall id <- ctx.bare ensures OnceArgsId(id, e.args, scope) { assert OnceId(id, e, scope); }
    FitFirst(ctx, fr, u, u1, HitCount(f, scope));
    AgreeArgs(p, ctx, fuel, e.args, env, fr);
    IsGoodCode(p);
    ArgsGood(p, fuel, e.args, env);
    MarkedCallsFunction(f, fn, env, shadows);
    ArgsLength(p, fuel, e.args, env);
    SameDecls(env, fr);
    var o := RunArgs(p, ctx, fuel, e.args, fr);
    MarkedCall(p, ctx, fuel, f, e.args, fr);
    SelfCall(p, fuel, f, e.args, e.tail, env);
    if EvalArgs(p, fuel, e.args, env).Val? {
      StaysClean(ctx, fr, o.fr, u1);
      GotoRebinds(fn, o.fr, shadows, env, o.v);
      assert JumpsWith(p, fuel, fn, Eval(p, fuel, e, env), Full(Zip(fn.params, o.v)), o.v);
    }
  }

  lemma MarkedCall(p: Program, ctx: Ctx, fuel: nat, f: Name, args: Args, fr: Frame)
    requires ctx.inFn
    ensures var o := RunArgs(p, ctx, fuel, args, fr);
      Run(p, ctx, fuel, Call(f, args, true), fr)
        == match o { case Done(vs, fr1) => Goto(ctx, vs, fr1) case Jump(_) => Crash case Panicked => Panicked case Hung => Hung case Crash => Crash }
  {
  }

  lemma SelfCall(p: Program, fuel: nat, f: Name, args: Args, tail: bool, env: Env)
    requires f in p.fns && Innermost(Decls(env), f) < 0
    ensures var r := EvalArgs(p, fuel, args, env);
      Eval(p, fuel, Call(f, args, tail), env)
        == match r { case Val(vs) => CallFn(p, fuel, p.fns[f], vs) case Panic => Panic case Timeout => Timeout case Mismatch => Mismatch }
  {
  }

  lemma GotoRebinds(fn: Fn, fr1: Frame, shadows: seq<Name>, env: Env, vs: seq<V>)
    requires Clean(FnCtx(fn), fr1) && Rel(env, fr1) && InFunction(fn, env, shadows) && |vs| == |fn.params|
    requires DistinctNames(fn.params) && forall j :: 0 <= j < |fn.params| ==> fn.params[j].name !in shadows
    ensures Goto(FnCtx(fn), vs, fr1) == Jump(Full(Zip(fn.params, vs)))
  {
    Droppable(FnCtx(fn), fr1, shadows, env, fn);
    RebindsAll(fr1, fn.params, fn.params, vs, 0);
    assert vs[0..] == vs;
  }

  /** A marked call is a call of the function itself exactly when no parameter has its name. */
  lemma MarkedCallsFunction(f: Name, fn: Fn, env: Env, shadows: seq<Name>)
    requires InFunction(fn, env, shadows) && f !in shadows
    ensures Innermost(Decls(env), f) < 0 <==> f !in Names(fn.params)
  {
    var ds := Decls(env);
    assert forall i :: 0 <= i < |fn.params| ==> ds[i] == ds[..|fn.params|][i] && Names(fn.params)[i] in Names(fn.params);
    if f in Names(fn.params) {
      var i :| 0 <= i < |fn.params| && Names(fn.params)[i] == f;
      assert ds[i].name == f;
    }
  }

  lemma Droppable(ctx: Ctx, fr1: Frame, shadows: seq<Name>, env: Env, fn: Fn)
    requires ctx == FnCtx(fn) && Clean(ctx, fr1) && Rel(env, fr1) && InFunction(fn, env, shadows)
    requires DistinctNames(fn.params) && forall j :: 0 <= j < |fn.params| ==> fn.params[j].name !in shadows
    ensures CanDrop(ctx, fr1) && |fn.params| <= |fr1| && FrameDecls(fr1)[..|fn.params|] == fn.params
    ensures forall k :: |fn.params| <= k < |fr1| ==>
      && fr1[k].decl !in fn.params
      && forall j :: 0 <= j < |fn.params| ==> fr1[k].decl.name != fn.params[j].name
  {
    SameDecls(env, fr1);
    forall j | 0 <= j < |fn.params| ensures Innermost(FrameDecls(fr1), fn.params[j].name) == j {
      FindsParam(FrameDecls(fr1), fn.params, j);
    }
    forall j | 0 <= j < |fn.params| && fn.params[j].id !in ctx.bare ensures fr1[j].val.Some? {
      assert FrameDecls(fr1)[..|fn.params|][j] == fn.params[j];
    }
  }
}
