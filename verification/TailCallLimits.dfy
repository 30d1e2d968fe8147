/** Where the emitted code goes wrong: a variable between the entry and the call takes a parameter's
    name; a parameter has the name of the function; a `let` reads the name that it binds, meets a
    value that its pattern does not match, or declares what its block has declared before. */
module TailCallLimits {
  import opened Stage0
  import opened TailCalls
  import opened UseCount
  import opened CScopes
  import opened TailCallProof

  /** The jump gives every parameter its new value, whatever the values are, exactly when no
      variable declared since the entry has a parameter's name. */
  lemma RebindExactly(fr: Frame, params: seq<Decl>)
    requires |params| <= |fr| && FrameDecls(fr)[..|params|] == params && DistinctNames(params)
    ensures (forall vs: seq<V> :: |vs| == |params| ==> Rebind(fr, params, vs)[..|params|] == Full(Zip(params, vs)))
      <==> forall k, j :: |params| <= k < |fr| && 0 <= j < |params| ==> fr[k].decl.name != params[j].name
  {
    if k, j :| |params| <= k < |fr| && 0 <= j < |params| && fr[k].decl.name == params[j].name {
      var vs := RebindMisses(fr, params, k, j);
    } else {
      forall vs: seq<V> | |vs| == |params| ensures Rebind(fr, params, vs)[..|params|] == Full(Zip(params, vs)) {
        RebindsAll(fr, params, params, vs, 0);
        assert vs[0..] == vs;
      }
    }
  }

  /** The parameter `j` is hidden: new values that it does not get. */
  lemma RebindMisses(fr: Frame, params: seq<Decl>, k: nat, j: nat) returns (vs: seq<V>)
    requires |params| <= |fr| && FrameDecls(fr)[..|params|] == params && DistinctNames(params)
    requires |params| <= k < |fr| && j < |params| && fr[k].decl.name == params[j].name
    ensures |vs| == |params| && Rebind(fr, params, vs)[..|params|] != Full(Zip(params, vs))
  {
    vs := seq(|params|, i requires 0 <= i < |params| => if fr[i].val == Some(Int(0)) then Int(1) else Int(0));
    Untouched(fr, params, vs, params, j);
    var was, now := Rebind(fr, params, vs)[..|params|], Full(Zip(params, vs));
    assert was[j] == fr[j] && now[j].val == Some(vs[j]);
  }

  /** A parameter that is not the innermost variable of its name keeps what it had. */
  lemma {:induction false} Untouched(fr: Frame, params: seq<Decl>, vs: seq<V>, all: seq<Decl>, j: nat)
    requires |params| == |vs| && j < |all| <= |fr| && FrameDecls(fr)[..|all|] == all && DistinctNames(all)
    requires exists k :: |all| <= k < |fr| && fr[k].decl.name == all[j].name
    ensures Rebind(fr, params, vs)[j] == fr[j]
    decreases |params|
  {
    if params != [] {
      var i := Innermost(FrameDecls(fr), params[0].name);
      assert FrameDecls(fr)[..|all|][j] == all[j];
      var fr1 := if i < 0 then fr else fr[i := Slot(fr[i].decl, Some(vs[0]))];
      assert FrameDecls(fr1) == FrameDecls(fr);
      Untouched(fr1, params[1..], vs[1..], all, j);
    }
  }

  // ---------- two programs that are compiled wrongly ----------

  const N: Name := "n"
  const F: Name := "f"
  const Zero := Arg(Lit(0), NoArgs)
  const Inner := Block(Let(Bind(Decl(N, 1)), Lit(5), Call(F, Zero, false)))
  const Arms2 := Arm(Wild, NoGuard, Inner, NoArms)

  /** fn f(n) = match n { 0 -> 7, _ -> { let n = 5; f(0) } } */
  const Capturing := Fn([Decl(N, 0)], Match(Var(N), Arm(PLit(0), NoGuard, Lit(7), Arms2)))

  function ParamIs(v: V): Env { [Bound(Decl(N, 0), v)] }

  lemma ZipOne(v: V)
    ensures Zip(Capturing.params, [v]) == ParamIs(v)
  {
  }

  lemma ZeroArgs(p: Program, ctx: Ctx, fuel: nat, env: Env, fr: Frame)
    ensures EvalArgs(p, fuel, Zero, env) == Val([Int(0)]) && RunArgs(p, ctx, fuel, Zero, fr) == Done([Int(0)], fr)
  {
    assert EvalArgs(p, fuel, NoArgs, env) == Val([]) && RunArgs(p, ctx, fuel, NoArgs, fr) == Done([], fr);
    assert Eval(p, fuel, Lit(0), env) == Val(Int(0)) && Run(p, ctx, fuel, Lit(0), fr) == Done(Int(0), fr);
    assert [Int(0)] + [] == [Int(0)];
  }

  /** f(1) is 7. */
  lemma CapturingMeans(p: Program, fuel: nat)
    requires p.fns == map[F := Capturing] && fuel >= 2
    ensures CallFn(p, fuel, Capturing, [Int(1)]) == Val(Int(7))
  {
    var e1, e0 := ParamIs(Int(1)), ParamIs(Int(0));
    var inner := e1 + [Bound(Decl(N, 1), Int(5))];
    ZipOne(Int(1));
    ZipOne(Int(0));
    assert CallFn(p, fuel - 1, Capturing, [Int(0)]) == Val(Int(7)) by {
      assert Eval(p, fuel - 2, Var(N), e0) == Val(Int(0));
      assert e0 + [] == e0 && Binds(PLit(0), Int(0)) == [];
      assert EvalArms(p, fuel - 2, Int(0), Capturing.body.arms, e0) == Eval(p, fuel - 2, Lit(7), e0);
    }
    ZeroArgs(p, InLambda, fuel - 1, inner, []);
    assert Innermost(Decls(inner), F) == -1;
    assert Eval(p, fuel - 1, Call(F, Zero, false), inner) == Val(Int(7));
    assert Eval(p, fuel - 1, Lit(5), e1) == Val(Int(5));
    assert Eval(p, fuel - 1, Inner.body, e1) == Val(Int(7));
    assert Eval(p, fuel - 1, Inner, e1) == Val(Int(7));
    assert e1 + [] == e1 && Binds(Wild, Int(1)) == [];
    assert EvalArms(p, fuel - 1, Int(1), Arms2, e1) == Val(Int(7));
    assert EvalArms(p, fuel - 1, Int(1), Capturing.body.arms, e1) == Val(Int(7));
    assert Eval(p, fuel - 1, Var(N), e1) == Val(Int(1));
    assert Eval(p, fuel - 1, Capturing.body, e1) == Val(Int(7));
  }

  lemma InnerUses(id: Id)
    ensures Uses(id, Inner, Capturing.params) == 0 && LamUses(id, Inner, Capturing.params) == 0
  {
    var scope := Capturing.params + PatDecls(Inner.body.pat);
    assert Innermost(scope, F) == -1;
    assert ArgsUses(id, Zero, scope) == 0 && ArgsLamUses(id, Zero, scope) == 0;
    assert Uses(id, Inner.body.body, scope) == 0;
    assert Uses(id, Inner.body, Capturing.params) == 0;
  }

  lemma ArmUses(id: Id)
    ensures ArmsUses(id, Arms2, Capturing.params) == 0 && ArmsLamUses(id, Arms2, Capturing.params) == 0
  {
    InnerUses(id);
    assert Capturing.params + [] == Capturing.params;
  }

  lemma BodyUses(id: Id)
    ensures Uses(id, Capturing.body, Capturing.params) == (if id == 0 then 1 else 0)
    ensures LamUses(id, Capturing.body, Capturing.params) == 0
  {
    var scope := Capturing.params;
    ArmUses(id);
    assert scope + [] == scope;
    assert Uses(id, Var(N), scope) == if id == 0 then 1 else 0;
  }

  lemma CapturingBare()
    ensures Bare(Capturing) == {0}
  {
    forall id ensures id in Bare(Capturing) <==> id == 0 { BodyUses(id); }
  }

  const MarkedArms := Arm(Wild, NoGuard, Block(Let(Bind(Decl(N, 1)), Lit(5), Call(F, Zero, true))), NoArms)

  lemma CapturingMarked()
    ensures Mark([], Capturing.body, F, 1) == Match(Var(N), Arm(PLit(0), NoGuard, Lit(7), MarkedArms))
    ensures !NoCapture([], Capturing.body, F, Capturing.params)
  {
    assert Length(Zero) == 1;
    assert [] + Names(PatDecls(Wild)) == [];
    assert Mark([], Inner.body, F, 1) == MarkedArms.body.body;
    assert Mark([], Inner, F, 1) == MarkedArms.body;
    assert MarkArms([], Arms2, F, 1) == MarkedArms;
    assert !NoCapture([], Inner.body, F, Capturing.params) by {
      var shadows := [] + Names(PatDecls(Inner.body.pat));
      assert IsSelfCall(shadows, F, Zero, F, 1) && shadows[0] == N && Capturing.params[0].name in shadows;
    }
    assert !NoCapture([], Inner, F, Capturing.params);
    assert !NoCaptureArms([], Arms2, F, Capturing.params);
  }

  /** But the jump assigns to the inner n, and the parameter is read again after the match took
      its reference. */
  lemma CaptureBreaks(p: Program, fuel: nat)
    requires p.fns == map[F := Capturing] && fuel >= 2
    ensures CallFn(p, fuel, Capturing, [Int(1)]) == Val(Int(7))
    ensures RunFn(p, fuel, F, Full(Zip(Capturing.params, [Int(1)]))) == Crash
    ensures !NoCapture([], Capturing.body, F, Capturing.params)
  {
    CapturingMeans(p, fuel);
    CapturingBare();
    CapturingMarked();
    ZipOne(Int(1));
    var d0, d1, ctx := Decl(N, 0), Decl(N, 1), Ctx(true, Capturing.params, {0});
    var moved := [Slot(d0, None)];
    FirstRound(p, fuel - 1);
    SecondRound(p, fuel - 1);
    assert Full(ParamIs(Int(1))) == [Slot(d0, Some(Int(1)))];
  }

  /** From the entry with the parameter moved away, the code reads it. */
  lemma SecondRound(p: Program, fuel: nat)
    requires p.fns == map[F := Capturing] && fuel >= 1
    ensures RunFn(p, fuel, F, [Slot(Decl(N, 0), None)]) == Crash
  {
    CapturingBare();
    CapturingMarked();
    var d0, ctx := Decl(N, 0), Ctx(true, Capturing.params, {0});
    var moved := [Slot(d0, None)];
    assert FrameDecls(moved) == [d0] && Innermost([d0], N) == 0;
    assert Run(p, ctx, fuel - 1, Var(N), moved) == Crash;
  }

  /** From the entry with n = 1 the code jumps back with the parameter moved away. */
  lemma FirstRound(p: Program, fuel: nat)
    ensures Run(p, Ctx(true, Capturing.params, {0}), fuel, Match(Var(N), Arm(PLit(0), NoGuard, Lit(7), MarkedArms)), [Slot(Decl(N, 0), Some(Int(1)))])
      == Jump([Slot(Decl(N, 0), None)])
  {
    var d0, ctx := Decl(N, 0), Ctx(true, Capturing.params, {0});
    var moved := [Slot(d0, None)];
    assert Run(p, ctx, fuel, Var(N), [Slot(d0, Some(Int(1)))]) == Done(Int(1), moved);
    InnerJumps(p, fuel);
    assert moved + Full(Binds(Wild, Int(1))) == moved;
    assert RunArms(p, ctx, fuel, Int(1), MarkedArms, moved) == Jump(moved);
  }

  /** The block sets its own n, and that is what the jump assigns to. */
  lemma InnerJumps(p: Program, fuel: nat)
    ensures var moved := [Slot(Decl(N, 0), None)];
      Run(p, Ctx(true, Capturing.params, {0}), fuel, MarkedArms.body, moved) == Jump(moved)
  {
    var d1, ctx, moved, l := Decl(N, 1), Ctx(true, Capturing.params, {0}), [Slot(Decl(N, 0), None)], MarkedArms.body.body;
    var unset := moved + Unset(Bind(d1));
    CallJumps(p, fuel);
    assert Run(p, ctx, fuel, Lit(5), unset) == Done(Int(5), unset) && unset[..1] == moved;
    assert Full([Bound(d1, Int(5))]) == [Slot(d1, Some(Int(5)))];
    assert Run(p, ctx, fuel, l, moved) == Jump(moved);
  }

  lemma CallJumps(p: Program, fuel: nat)
    ensures var moved := [Slot(Decl(N, 0), None)];
      Run(p, Ctx(true, Capturing.params, {0}), fuel, Call(F, Zero, true), moved + [Slot(Decl(N, 1), Some(Int(5)))]) == Jump(moved)
  {
    var d0, d1, ctx := Decl(N, 0), Decl(N, 1), Ctx(true, Capturing.params, {0});
    var moved := [Slot(d0, None)];
    var inner := moved + [Slot(d1, Some(Int(5)))];
    ZeroArgs(p, ctx, fuel, [], inner);
    assert FrameDecls(inner) == [d0, d1] && Innermost([d0, d1], N) == 1;
    assert Rebind(inner, Capturing.params, [Int(0)])[..1] == moved;
    assert Goto(ctx, [Int(0)], inner) == Jump(moved);
  }

  /** fn f(f) = f(0) calls its argument, but the emitted code jumps for ever. */
  const Nameless := Fn([Decl(F, 0)], Call(F, Zero, false))

  lemma NamelessMeans(p: Program, fuel: nat, v: V)
    requires p.fns == map[F := Nameless] && v.Int? && fuel > 0
    ensures CallFn(p, fuel, Nameless, [v]) == Panic
  {
    var env := Zip(Nameless.params, [v]);
    ZeroArgs(p, InLambda, fuel - 1, env, []);
    assert Decls(env) == [Decl(F, 0)] && Innermost([Decl(F, 0)], F) == 0;
    assert ReadVar(p, F, env) == Val(v);
    assert Apply(p, fuel - 1, v, [Int(0)]) == Panic;
    assert Eval(p, fuel - 1, Nameless.body, env) == Panic;
  }

  lemma {:induction false} ParamNamedLikeFunction(p: Program, fuel: nat, v: V)
    requires p.fns == map[F := Nameless] && v.Int?
    ensures fuel > 0 ==> CallFn(p, fuel, Nameless, [v]) == Panic
    ensures RunFn(p, fuel, F, Full(Zip(Nameless.params, [v]))) == Hung
  {
    if fuel > 0 {
      NamelessMeans(p, fuel, v);
      var fr, d := Full(Zip(Nameless.params, [v])), Decl(F, 0);
      var ctx := Ctx(true, Nameless.params, Bare(Nameless));
      assert fr == [Slot(d, Some(v))] && FrameDecls(fr) == [d] && Innermost([d], F) == 0;
      assert Length(Zero) == 1;
      assert Mark([], Nameless.body, F, 1) == Call(F, Zero, true);
      ZeroArgs(p, ctx, fuel - 1, [], fr);
      ParamNamedLikeFunction(p, fuel - 1, Int(0));
      var again := Full(Zip(Nameless.params, [Int(0)]));
      assert again == [Slot(d, Some(Int(0)))];
      assert Rebind(fr, Nameless.params, [Int(0)])[..1] == again;
      assert Run(p, ctx, fuel - 1, Call(F, Zero, true), fr) == Jump(again);
    }
  }

  // ---------- a variable read in its own initialiser ----------

  const X: Name := "x"

  /** fn f(x) = { let x = x; x } */
  const SelfReading := Fn([Decl(X, 0)], Block(Let(Bind(Decl(X, 1)), Var(X), Var(X))))

  lemma SelfReadingMeans(p: Program, fuel: nat, v: V)
    requires fuel > 0
    ensures CallFn(p, fuel, SelfReading, [v]) == Val(v)
  {
    var env := Zip(SelfReading.params, [v]);
    var inner := env + [Bound(Decl(X, 1), v)];
    assert Decls(env) == [Decl(X, 0)] && Innermost([Decl(X, 0)], X) == 0;
    assert Eval(p, fuel - 1, Var(X), env) == Val(v);
    assert Decls(inner) == [Decl(X, 0), Decl(X, 1)] && Innermost([Decl(X, 0), Decl(X, 1)], X) == 1;
    assert Eval(p, fuel - 1, Var(X), inner) == Val(v);
    assert Eval(p, fuel - 1, SelfReading.body.body, env) == Val(v);
  }

  /** f(v) is v, but the C reads the new variable before it is set. */
  lemma SelfReadBreaks(p: Program, fuel: nat, v: V)
    requires p.fns == map[F := SelfReading] && fuel > 0
    ensures CallFn(p, fuel, SelfReading, [v]) == Val(v)
    ensures RunFn(p, fuel, F, Full(Zip(SelfReading.params, [v]))) == Crash
    ensures !NoSelfRead(SelfReading.body)
  {
    SelfReadingMeans(p, fuel, v);
    var body := SelfReading.body.body;
    assert Mark([], body, F, 1) == body by { assert [] + Names(PatDecls(body.pat)) == [X]; }
    assert Mark([], SelfReading.body, F, 1) == SelfReading.body;
    var fr := Full(Zip(SelfReading.params, [v]));
    var ctx := Ctx(true, SelfReading.params, Bare(SelfReading));
    assert FrameDecls(fr + Unset(body.pat)) == [Decl(X, 0), Decl(X, 1)] && Innermost([Decl(X, 0), Decl(X, 1)], X) == 1;
    assert Read(p, ctx, X, fr + Unset(body.pat)) == Crash;
    assert Run(p, ctx, fuel - 1, Var(X), fr + Unset(body.pat)) == Crash;
    assert Run(p, ctx, fuel - 1, body, fr) == Crash;
    assert Run(p, ctx, fuel - 1, SelfReading.body, fr) == Crash;
    assert Free(X, Var(X));
  }

  // ---------- a pattern that does not match ----------

  /** fn f(x) = { let 1 = x; 7 } */
  const Refusing := Fn([Decl(X, 0)], Block(Let(PLit(1), Var(X), Lit(7))))

  /** f(0) has no meaning, but the C tests nothing and returns 7. */
  lemma RefusalIsIgnored(p: Program, fuel: nat)
    requires p.fns == map[F := Refusing] && fuel > 0
    ensures CallFn(p, fuel, Refusing, [Int(0)]) == Mismatch
    ensures var o := RunFn(p, fuel, F, Full(Zip(Refusing.params, [Int(0)]))); o.Done? && o.v == Int(7)
  {
    var env, fr, l := Zip(Refusing.params, [Int(0)]), Full(Zip(Refusing.params, [Int(0)])), Refusing.body.body;
    var ctx := Ctx(true, Refusing.params, Bare(Refusing));
    assert Decls(env) == [Decl(X, 0)] && Innermost([Decl(X, 0)], X) == 0;
    assert Eval(p, fuel - 1, Var(X), env) == Val(Int(0));
    assert Eval(p, fuel - 1, l, env) == Mismatch;
    assert Mark([], l, F, 1) == l && Mark([], Refusing.body, F, 1) == Refusing.body by { assert [] + Names(PatDecls(l.pat)) == []; }
    assert fr + Unset(l.pat) == fr && FrameDecls(fr) == [Decl(X, 0)];
    var o := Run(p, ctx, fuel - 1, Var(X), fr);
    assert o.Done? && o.v == Int(0) && |o.fr| == |fr|;
    assert Grabs(l.pat, o.v) == Some([]);
    assert Run(p, ctx, fuel - 1, Lit(7), o.fr[..|fr|] + Full([])).Done?;
    assert Run(p, ctx, fuel - 1, l, fr).Done?;
  }

  const Y: Name := "y"
  const SOME: Name := "Some"
  const NONE: V := Data("None", [])

  /** fn f(x) = { let Some(y) = x; y } */
  const Unwrapping := Fn([Decl(X, 0)], Block(Let(Con(SOME, [Bind(Decl(Y, 1))]), Var(X), Var(Y))))

  /** f(None) reads an argument that is not there. */
  lemma RefusalCrashes(p: Program, fuel: nat)
    requires p.fns == map[F := Unwrapping] && fuel > 0
    ensures CallFn(p, fuel, Unwrapping, [NONE]) == Mismatch
    ensures RunFn(p, fuel, F, Full(Zip(Unwrapping.params, [NONE]))) == Crash
  {
    var env, fr, l := Zip(Unwrapping.params, [NONE]), Full(Zip(Unwrapping.params, [NONE])), Unwrapping.body.body;
    var ctx := Ctx(true, Unwrapping.params, Bare(Unwrapping));
    assert Decls(env) == [Decl(X, 0)] && Innermost([Decl(X, 0)], X) == 0;
    assert Eval(p, fuel - 1, Var(X), env) == Val(NONE);
    assert Eval(p, fuel - 1, l, env) == Mismatch;
    assert Mark([], l, F, 1) == l && Mark([], Unwrapping.body, F, 1) == Unwrapping.body;
    assert fr + Unset(l.pat) == fr && FrameDecls(fr) == [Decl(X, 0)];
    var o := Run(p, ctx, fuel - 1, Var(X), fr);
    assert o.Done? && o.v == NONE && |o.fr| == |fr|;
    assert PatDecls(l.pat.args[0]) == [Decl(Y, 1)];
    assert GrabsAll(l.pat.args, NONE, 0) == None;
    assert Run(p, ctx, fuel - 1, l, fr) == Crash;
  }

  /** What is to come of a `let`, and what comes of it: the rest goes on with these variables, the
      value is refused, or the rest goes on with what was never there. */
  datatype AfterLet = Goes(more: Env) | Refuses | Garbage

  function LetMeans(pat: Pat, v: V): AfterLet {
    if Matches(pat, v) then Goes(Binds(pat, v)) else Refuses
  }

  function LetDoes(pat: Pat, v: V): AfterLet {
    match Grabs(pat, v)
    case None => Garbage
    case Some(more) => Goes(more)
  }

  /** They are the same exactly when the pattern matches. */
  lemma LetExactly(pat: Pat, v: V)
    ensures LetDoes(pat, v) == LetMeans(pat, v) <==> Matches(pat, v)
  {
    if Matches(pat, v) { GrabsBinds(pat, v); }
  }

  /** And so for every value exactly when the pattern is a name or a wildcard. */
  lemma LetAlways(pat: Pat)
    ensures (forall v :: LetDoes(pat, v) == LetMeans(pat, v)) <==> pat.Bind? || pat.Wild?
  {
    forall v ensures LetDoes(pat, v) == LetMeans(pat, v) <==> Matches(pat, v) { LetExactly(pat, v); }
    if pat.PLit? || pat.Con? {
      var other := if pat.PLit? then Int(pat.value + 1) else Int(0);
      assert !Matches(pat, other);
    }
  }

  // ---------- a name declared twice ----------

  const One := Bind(Decl(Y, 1))
  const Two := Bind(Decl(Y, 2))

  /** fn f() = { let y = 1; let y = 2; y } */
  const Twice := Fn([], Block(Let(One, Lit(1), Let(Two, Lit(2), Var(Y)))))

  /** fn f() = { let y = 1; { let y = 2; y } } */
  const Nested := Fn([], Block(Let(One, Lit(1), Block(Let(Two, Lit(2), Var(Y))))))

  /** fn f() = { let _ = 1; let _ = 2; 3 } */
  const Ignoring := Fn([], Block(Let(Wild, Lit(1), Let(Wild, Lit(2), Lit(3)))))

  lemma TwiceMeans(p: Program, fuel: nat)
    requires fuel > 0
    ensures CallFn(p, fuel, Twice, []) == Val(Int(2))
  {
    var e1, inner := [Bound(Decl(Y, 1), Int(1))], Twice.body.body.body;
    var e2 := e1 + [Bound(Decl(Y, 2), Int(2))];
    assert Zip([], []) == [];
    assert [] + Binds(One, Int(1)) == e1 && Binds(Two, Int(2)) == [Bound(Decl(Y, 2), Int(2))];
    assert Decls(e2) == [Decl(Y, 1), Decl(Y, 2)] && Innermost([Decl(Y, 1), Decl(Y, 2)], Y) == 1;
    assert Eval(p, fuel - 1, Var(Y), e2) == Val(Int(2));
    assert Eval(p, fuel - 1, inner, e1) == Val(Int(2));
    assert Eval(p, fuel - 1, Twice.body.body, []) == Val(Int(2));
  }

  lemma SameNameTwice()
    ensures !DeclaredOnce(Twice.body)
  {
    var names := BlockNames(Twice.body.body);
    assert Names([Decl(Y, 1)]) == [Y] && Names([Decl(Y, 2)]) == [Y];
    assert BlockNames(Twice.body.body.body) == [Y] && names == [Y] + [Y];
    assert names[0] == names[1];
  }

  lemma NameInEachBlock()
    ensures DeclaredOnce(Nested.body)
  {
    assert Names([Decl(Y, 1)]) == [Y] && Names([Decl(Y, 2)]) == [Y];
    assert BlockNames(Nested.body.body) == [Y] && BlockNames(Nested.body.body.body.body) == [Y];
  }

  lemma TwoWildcards()
    ensures !DeclaredOnce(Ignoring.body)
  {
    assert Unpacking(Ignoring.body.body.body) == 1;
  }

  /** The first means 2, and reads no name in its own initialiser, but is not C, as the second is. Nor
      is a block with two wildcards, each of which needs a temporary. */
  lemma TwiceIsNotC(p: Program, fuel: nat)
    requires fuel > 0
    ensures CallFn(p, fuel, Twice, []) == Val(Int(2)) && NoSelfRead(Twice.body)
    ensures !IsC(Twice.body) && IsC(Nested.body) && !IsC(Ignoring.body)
  {
    TwiceMeans(p, fuel);
    SameNameTwice();
    NameInEachBlock();
    TwoWildcards();
    DeclarationsAreC(Twice.body);
    DeclarationsAreC(Nested.body);
    DeclarationsAreC(Ignoring.body);
  }
}
