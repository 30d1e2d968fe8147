/** The programs that the agreement of the emitted code is proved for, place by place. */
module OkPrograms {
  import opened Stage0
  import opened TailCalls
  import opened UseCount
  import opened CScopes
  import opened TailCallScopes
  import opened TailCallProof
  import TreePaths
  import TreeReads

  /** Between the entry of the function and a call that jumps back to it nothing takes the name of a
      parameter. */
  ghost predicate JumpsClean(shadows: seq<Name>, e: Expr, f: Name, params: seq<Decl>) {
    forall path :: TreePaths.TailCallsItself(shadows, e, path, f, |params|) ==> CleanAt(shadows, e, path, params)
  }

  predicate CleanAt(shadows: seq<Name>, e: Expr, path: TreePaths.Path, params: seq<Decl>) {
    forall j :: 0 <= j < |params| ==> params[j].name !in shadows + Names(TreePaths.Around(e, path))
  }

  predicate CapturesInArm(shadows: seq<Name>, arms: Arms, f: Name, params: seq<Decl>, k: nat) {
    k < TreePaths.ArmCount(arms)
    && !NoCapture(shadows + Names(PatDecls(TreePaths.ArmsFrom(arms, k).pat)), TreePaths.ArmsFrom(arms, k).body, f, params)
  }

  lemma {:induction false} CapturingArm(shadows: seq<Name>, arms: Arms, f: Name, params: seq<Decl>) returns (k: nat)
    requires !NoCaptureArms(shadows, arms, f, params)
    ensures CapturesInArm(shadows, arms, f, params, k)
    decreases arms
  {
    if CapturesInArm(shadows, arms, f, params, 0) {
      k := 0;
    } else {
      k := CapturingArm(shadows, arms.rest, f, params);
      k := k + 1;
    }
  }

  lemma {:induction false} ArmCaptures(shadows: seq<Name>, arms: Arms, f: Name, params: seq<Decl>, k: nat)
    requires CapturesInArm(shadows, arms, f, params, k)
    ensures !NoCaptureArms(shadows, arms, f, params)
    decreases k
  {
    if k > 0 { ArmCaptures(shadows, arms.rest, f, params, k - 1); }
  }

  lemma NothingMore(shadows: seq<Name>)
    ensures shadows + Names([]) == shadows
  {
  }

  lemma CaptureStep(shadows: seq<Name>, e: Expr, f: Name, params: seq<Decl>) returns (s: TreePaths.Step)
    requires !NoCapture(shadows, e, f, params) && !e.Call?
    ensures TreePaths.TailStep(e, s) && TreePaths.Child(e, s).Some?
    ensures !NoCapture(shadows + Names(TreePaths.Binding(e, s)), TreePaths.Child(e, s).value, f, params)
  {
    NothingMore(shadows);
    match e
    case If(_, t, _) => s := if !NoCapture(shadows, t, f, params) then TreePaths.Yes else TreePaths.No;
    case Match(_, arms) => var k := CapturingArm(shadows, arms, f, params); s := TreePaths.BodyOf(k);
    case _ => s := TreePaths.Body;
  }

  lemma StepCaptures(shadows: seq<Name>, e: Expr, f: Name, params: seq<Decl>, s: TreePaths.Step)
    requires TreePaths.TailStep(e, s) && TreePaths.Child(e, s).Some?
    requires !NoCapture(shadows + Names(TreePaths.Binding(e, s)), TreePaths.Child(e, s).value, f, params)
    ensures !NoCapture(shadows, e, f, params)
  {
    NothingMore(shadows);
    if e.Match? { ArmCaptures(shadows, e.arms, f, params, s.arm); }
  }

  lemma AroundStep(shadows: seq<Name>, e: Expr, path: TreePaths.Path)
    requires path != [] && TreePaths.Child(e, path[0]).Some?
    ensures shadows + Names(TreePaths.Around(e, path)) ==
      (shadows + Names(TreePaths.Binding(e, path[0]))) + Names(TreePaths.Around(TreePaths.Child(e, path[0]).value, path[1..]))
  {
    var c := TreePaths.Child(e, path[0]).value;
    TreeReads.NamesAround(e, path);
    Regroup(shadows, Names(TreePaths.Binding(e, path[0])), Names(TreePaths.Around(c, path[1..])));
  }

  lemma Regroup(a: seq<Name>, b: seq<Name>, c: seq<Name>)
    ensures a + (b + c) == (a + b) + c
  {
  }

  lemma {:induction false} CaptureFound(shadows: seq<Name>, e: Expr, f: Name, params: seq<Decl>) returns (path: TreePaths.Path)
    requires !NoCapture(shadows, e, f, params)
    ensures TreePaths.TailCallsItself(shadows, e, path, f, |params|) && !CleanAt(shadows, e, path, params)
    decreases e
  {
    path := [];
    if e.Call? {
      NothingMore(shadows);
      assert TreePaths.Around(e, path) == [];
    } else {
      var s := CaptureStep(shadows, e, f, params);
      var rest := CaptureFound(shadows + Names(TreePaths.Binding(e, s)), TreePaths.Child(e, s).value, f, params);
      path := [s] + rest;
      assert path[1..] == rest;
      AroundStep(shadows, e, path);
    }
  }

  lemma {:induction false} FoundCapture(shadows: seq<Name>, e: Expr, f: Name, params: seq<Decl>, path: TreePaths.Path)
    requires TreePaths.TailCallsItself(shadows, e, path, f, |params|) && !CleanAt(shadows, e, path, params)
    ensures !NoCapture(shadows, e, f, params)
    decreases |path|
  {
    if path == [] {
      NothingMore(shadows);
    } else {
      AroundStep(shadows, e, path);
      FoundCapture(shadows + Names(TreePaths.Binding(e, path[0])), TreePaths.Child(e, path[0]).value, f, params, path[1..]);
      StepCaptures(shadows, e, f, params, path[0]);
    }
  }

  lemma CapturesByPlace(shadows: seq<Name>, e: Expr, f: Name, params: seq<Decl>)
    ensures NoCapture(shadows, e, f, params) <==> JumpsClean(shadows, e, f, params)
  {
    if !NoCapture(shadows, e, f, params) { var path := CaptureFound(shadows, e, f, params); }
    forall path | TreePaths.TailCallsItself(shadows, e, path, f, |params|) && !CleanAt(shadows, e, path, params)
      ensures !NoCapture(shadows, e, f, params)
    {
      FoundCapture(shadows, e, f, params, path);
    }
  }

  /** As the parser leaves it: no call is marked, and every declaration is one of its own. */
  predicate Parsed(fn: Fn) {
    && Unmarked(fn.body) && Apart(fn.body) && NoId !in Binders(fn.body)
    && Binders(fn.body) !! Ids(fn.params) && NoId !in Ids(fn.params)
  }

  /** Outside of the four places where the code that is emitted for a function can go wrong: names
      that C sees twice in one scope, a `let` that reads its own name, a parameter named like the
      function where it jumps, and one that is shadowed there. */
  lemma OkByPlace(f: Name, fn: Fn)
    requires Parsed(fn)
    ensures OkFn(f, fn) <==>
      && DistinctNames(fn.params)
      && (forall path :: TreePaths.At(fn.body, path).Some? ==> !TreeReads.DeclaredTwiceHere(TreePaths.At(fn.body, path).value))
      && (forall path, inner :: !TreeReads.SelfReadAt(fn.body, path, inner))
      && (forall path :: TreePaths.TailCallsItself([], fn.body, path, f, |fn.params|) ==> f !in Names(fn.params))
      && JumpsClean([], fn.body, f, fn.params)
  {
    CapturesByPlace([], fn.body, f, fn.params);
    TreeReads.SelfReadsByPlace(fn.body);
    TreeReads.DeclarationsByPlace(fn.body);
    TreePaths.WalkFindsTailCalls([], fn.body, f, |fn.params|);
  }

  // ---------- one of them, from its text to the end of its run ----------

  const N: Name := "n"
  const F: Name := "f"
  const Given := Arg(Var(N), NoArgs)

  /** fn f(n) = if zero(n) { 7 } else { f(pred(n)) } */
  const Countdown := Fn([Decl(N, 0)], If(Prim("zero", Given), Lit(7), Call(F, Arg(Prim("pred", Given), NoArgs), false)))

  /** The operators say what their names say. */
  ghost predicate Counts(p: Program) {
    && p.fns == map[F := Countdown] && TamePrim(p)
    && (forall i: int :: p.prim("zero", [Int(i)]) == Some(Data(if i == 0 then "true" else "false", [])))
    && forall i: int :: p.prim("pred", [Int(i)]) == Some(Int(i - 1))
  }

  function At(i: int): Env { [Bound(Decl(N, 0), Int(i))] }

  lemma GivenIs(p: Program, fuel: nat, i: int)
    ensures EvalArgs(p, fuel, Given, At(i)) == Val([Int(i)])
  {
    assert Eval(p, fuel, Var(N), At(i)) == Val(Int(i));
    assert EvalArgs(p, fuel, NoArgs, At(i)) == Val([]);
    assert [Int(i)] + [] == [Int(i)];
  }

  lemma ZipIsAt(i: int)
    ensures Zip(Countdown.params, [Int(i)]) == At(i)
  {
  }

  lemma {:induction false} CountdownMeans(p: Program, fuel: nat, n: nat)
    requires Counts(p) && fuel > n
    ensures CallFn(p, fuel, Countdown, [Int(n)]) == Val(Int(7))
    decreases n
  {
    var f, env := fuel - 1, At(n);
    ZipIsAt(n);
    GivenIs(p, f, n);
    assert p.prim("zero", [Int(n)]) == Some(Data(if n == 0 then "true" else "false", []));
    assert Eval(p, f, Prim("zero", Given), env) == Val(Data(if n == 0 then "true" else "false", []));
    if n > 0 {
      CountdownMeans(p, f, n - 1);
      assert p.prim("pred", [Int(n)]) == Some(Int(n - 1));
      assert Eval(p, f, Prim("pred", Given), env) == Val(Int(n - 1));
      LastCall(p, f, n);
    }
    var e := Countdown.body;
    assert Eval(p, f, e.yes, env) == Val(Int(7));
    assert Eval(p, f, e, env) == if n == 0 then Eval(p, f, e.yes, env) else Eval(p, f, e.no, env);
  }

  lemma LastCall(p: Program, fuel: nat, n: nat)
    requires Counts(p) && Eval(p, fuel, Prim("pred", Given), At(n)) == Val(Int(n - 1))
    ensures Eval(p, fuel, Call(F, Arg(Prim("pred", Given), NoArgs), false), At(n)) == CallFn(p, fuel, Countdown, [Int(n - 1)])
  {
    assert Innermost(Decls(At(n)), F) == -1;
    assert EvalArgs(p, fuel, NoArgs, At(n)) == Val([]);
    assert [Int(n - 1)] + [] == [Int(n - 1)];
    assert EvalArgs(p, fuel, Arg(Prim("pred", Given), NoArgs), At(n)) == Val([Int(n - 1)]);
    assert Apply(p, fuel, FunRef(F), [Int(n - 1)]) == CallFn(p, fuel, Countdown, [Int(n - 1)]);
  }

  lemma CountdownIsOk(p: Program)
    requires Counts(p)
    ensures OkProgram(p)
  {
    var e := Countdown.body;
    assert PatDecls(Wild) == [] && UnmarkedArgs(Given) && ApartArgs(Given) && ArgsBinders(Given) == {} && NoSelfReadArgs(Given) && ArgsAreC(Given);
    assert Unmarked(e.yes) && Unmarked(e.no.args.head) && Unmarked(e.no) && Unmarked(e);
    assert NoCapture([], e.yes, F, Countdown.params) && NoCapture([], e.no, F, Countdown.params);
    assert Binders(e.cond) == {} && Binders(e.no) == {};
    assert Apart(e.cond) && Apart(e.no) && Apart(e);
    assert NoSelfRead(e.cond) && NoSelfRead(e.no) && NoSelfRead(e);
    assert IsC(e.cond) && IsC(e.no) && IsC(e);
    assert OkFn(F, Countdown);
  }

  /** It runs to the end in the emitted C, from any number, with as many jumps: and gives 7. */
  lemma CountdownRuns(p: Program, fuel: nat, n: nat)
    requires Counts(p) && fuel > n
    ensures var o := RunFn(p, fuel, F, Full(Zip(Countdown.params, [Int(n)]))); o.Done? && o.v == Int(7)
  {
    CountdownIsOk(p);
    CountdownMeans(p, fuel, n);
    AgreeFn(p, fuel, F, [Int(n)]);
  }
}
