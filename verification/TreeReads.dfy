/** The counts, the free names and the declarations that the code generator computes by recursion,
    against the places in the tree that they speak of. */
module TreeReads {
  import opened Stage0
  import opened TailCalls
  import opened TreePaths
  import opened CScopes

  // ---------- reads ----------

  /** In this scope `x` is the declaration `id`. */
  ghost predicate Denotes(scope: seq<Decl>, x: Name, id: Id) {
    exists k :: 0 <= k < |scope| && scope[k] == Decl(x, id) && forall j :: k < j < |scope| ==> scope[j].name != x
  }

  lemma HitDenotes(id: Id, x: Name, scope: seq<Decl>)
    ensures Hit(id, x, scope) == if Denotes(scope, x, id) then 1 else 0
  {
    var k := Innermost(scope, x);
    if k >= 0 && scope[k].id == id { assert scope[k] == Decl(x, id); }
    if i :| 0 <= i < |scope| && scope[i] == Decl(x, id) && forall j :: i < j < |scope| ==> scope[j].name != x {
      assert i <= k;
    }
  }

  /** An identifier, as a variable or as what is called. */
  predicate Mentions(e: Expr, x: Name) {
    e == Var(x) || (e.Call? && e.callee == x)
  }

  /** At this place the declaration `id` is read. */
  ghost predicate Reads(id: Id, e: Expr, scope: seq<Decl>, path: Path) {
    At(e, path).Some? && exists x :: Mentions(At(e, path).value, x) && Denotes(scope + Around(e, path), x, id)
  }

  predicate InLambda(e: Expr, path: Path)
    decreases |path|
  {
    path != [] && Child(e, path[0]).Some? && (e.Lambda? || InLambda(Child(e, path[0]).value, path[1..]))
  }

  /** The same behind one more step. */
  lemma ReadsBehind(id: Id, e: Expr, scope: seq<Decl>, path: Path)
    requires path != [] && Child(e, path[0]).Some?
    ensures Reads(id, e, scope, path) <==> Reads(id, Child(e, path[0]).value, scope + Binding(e, path[0]), path[1..])
  {
    var c := Child(e, path[0]).value;
    assert scope + Around(e, path) == (scope + Binding(e, path[0])) + Around(c, path[1..]);
  }

  lemma ReadsHere(id: Id, e: Expr, scope: seq<Decl>)
    ensures Reads(id, e, scope, []) <==>
      (e.Var? && Hit(id, e.name, scope) == 1) || (e.Call? && Hit(id, e.callee, scope) == 1)
  {
    assert scope + Around(e, []) == scope;
    if e.Var? { HitDenotes(id, e.name, scope); assert Mentions(e, e.name); }
    if e.Call? { HitDenotes(id, e.callee, scope); assert Mentions(e, e.callee); }
  }

  /** All places where `id` is read, and those in lambdas. */
  datatype Places = Places(all: set<Path>, inside: set<Path>)

  ghost predicate ArePlaces(id: Id, e: Expr, scope: seq<Decl>, r: Places) {
    && (forall p: Path :: p in r.all <==> Reads(id, e, scope, p))
    && (forall p: Path :: p in r.inside <==> p in r.all && InLambda(e, p))
  }

  /** Those that begin with a step from `steps`. */
  ghost predicate ArePlacesBehind(id: Id, e: Expr, scope: seq<Decl>, steps: iset<Step>, r: Places) {
    && (forall p: Path :: p in r.all <==> p != [] && p[0] in steps && Reads(id, e, scope, p))
    && (forall p: Path :: p in r.inside <==> p in r.all && InLambda(e, p))
  }

  function Behind(s: Step, ps: set<Path>): (r: set<Path>) {
    set p | p in ps :: [s] + p
  }

  lemma BehindHas(s: Step, ps: set<Path>, p: Path)
    ensures p in Behind(s, ps) <==> p != [] && p[0] == s && p[1..] in ps
  {
    if p != [] && p[0] == s && p[1..] in ps { assert p == [s] + p[1..]; }
    if p in Behind(s, ps) {
      var q :| q in ps && p == [s] + q;
      assert p[1..] == q;
    }
  }

  lemma {:induction false} BehindSize(s: Step, ps: set<Path>)
    ensures |Behind(s, ps)| == |ps|
    decreases |ps|
  {
    if ps != {} {
      var q :| q in ps;
      BehindSize(s, ps - {q});
      assert Behind(s, ps) == Behind(s, ps - {q}) + {[s] + q};
      BehindHas(s, ps - {q}, [s] + q);
      assert ([s] + q)[1..] == q;
    }
  }

  /** The places in one part, as places of the whole. */
  lemma PartPlaces(id: Id, e: Expr, scope: seq<Decl>, s: Step, c: Places) returns (r: Places)
    requires Child(e, s).Some? && ArePlaces(id, Child(e, s).value, scope + Binding(e, s), c)
    ensures ArePlacesBehind(id, e, scope, iset{s}, r)
    ensures |r.all| == |c.all| && |r.inside| == if e.Lambda? then |c.all| else |c.inside|
  {
    r := Places(Behind(s, c.all), if e.Lambda? then Behind(s, c.all) else Behind(s, c.inside));
    BehindSize(s, c.all);
    BehindSize(s, c.inside);
    forall p: Path ensures p in r.all <==> p != [] && p[0] in iset{s} && Reads(id, e, scope, p) { PartPlace(id, e, scope, s, c, p); }
    forall p: Path ensures p in r.inside <==> p in r.all && InLambda(e, p) { PartInside(id, e, scope, s, c, p); }
  }

  lemma PartPlace(id: Id, e: Expr, scope: seq<Decl>, s: Step, c: Places, p: Path)
    requires Child(e, s).Some? && ArePlaces(id, Child(e, s).value, scope + Binding(e, s), c)
    ensures p in Behind(s, c.all) <==> p != [] && p[0] == s && Reads(id, e, scope, p)
  {
    BehindHas(s, c.all, p);
    if p != [] && p[0] == s { ReadsBehind(id, e, scope, p); }
  }

  lemma PartInside(id: Id, e: Expr, scope: seq<Decl>, s: Step, c: Places, p: Path)
    requires Child(e, s).Some? && ArePlaces(id, Child(e, s).value, scope + Binding(e, s), c)
    ensures p in (if e.Lambda? then Behind(s, c.all) else Behind(s, c.inside)) <==> p in Behind(s, c.all) && InLambda(e, p)
  {
    BehindHas(s, c.all, p);
    BehindHas(s, c.inside, p);
  }

  lemma BothPlaces(id: Id, e: Expr, scope: seq<Decl>, s1: iset<Step>, a: Places, s2: iset<Step>, b: Places) returns (r: Places)
    requires s1 !! s2 && ArePlacesBehind(id, e, scope, s1, a) && ArePlacesBehind(id, e, scope, s2, b)
    ensures ArePlacesBehind(id, e, scope, s1 + s2, r)
    ensures |r.all| == |a.all| + |b.all| && |r.inside| == |a.inside| + |b.inside|
  {
    r := Places(a.all + b.all, a.inside + b.inside);
    assert a.all !! b.all && a.inside !! b.inside by {
      forall p | p in a.all ensures p !in b.all { assert p[0] in s1 && p[0] !in s2; }
    }
  }

  lemma NoPlaces(id: Id, e: Expr, scope: seq<Decl>, steps: iset<Step>) returns (r: Places)
    requires forall s <- steps :: Child(e, s).None?
    ensures ArePlacesBehind(id, e, scope, steps, r) && r == Places({}, {})
  {
    r := Places({}, {});
  }

  /** The place itself, if it is a read, and the places behind all its steps. */
  lemma WholePlaces(id: Id, e: Expr, scope: seq<Decl>, c: Places) returns (r: Places)
    requires ArePlacesBehind(id, e, scope, StepsOf(e), c)
    ensures ArePlaces(id, e, scope, r)
    ensures |r.all| == |c.all| + (if Reads(id, e, scope, []) then 1 else 0) && |r.inside| == |c.inside|
  {
    r := if Reads(id, e, scope, []) then Places(c.all + {[]}, c.inside) else c;
    forall p: Path ensures p in r.all <==> Reads(id, e, scope, p) {
      if p != [] && Reads(id, e, scope, p) { StepsCover(e, p[0]); }
    }
  }

  /** The use counts count the places: how many there are, and how many are in lambdas. */
  lemma {:induction false} CountsReads(id: Id, e: Expr, scope: seq<Decl>) returns (r: Places)
    ensures ArePlaces(id, e, scope, r)
    ensures |r.all| == Uses(id, e, scope) && |r.inside| == LamUses(id, e, scope)
    decreases e, 2
  {
    var none: seq<Decl> := [];
    assert scope + none == scope;
    ReadsHere(id, e, scope);
    var c := PartsPlaces(id, e, scope);
    r := WholePlaces(id, e, scope, c);
  }

  function Width(e: Expr): nat {
    match e
    case Prim(_, args) => Length(args)
    case Call(_, args, _) => Length(args)
    case Match(_, arms) => ArmCount(arms)
    case _ => 0
  }

  function PartUses(id: Id, e: Expr, scope: seq<Decl>): int {
    Uses(id, e, scope) - if e.Var? then Hit(id, e.name, scope) else if e.Call? then Hit(id, e.callee, scope) else 0
  }

  ghost function StepsOf(e: Expr): iset<Step> {
    match e
    case Prim(_, _) => ArgSteps(0)
    case Call(_, _, _) => ArgSteps(0)
    case If(_, _, _) => iset{Cond, Yes, No}
    case Match(_, _) => iset{Scrutinee} + ArmSteps(0)
    case Let(_, _, _) => iset{First, Body}
    case Then(_, _) => iset{First, Body}
    case Lambda(_, _) => iset{Body}
    case Block(_) => iset{Body}
    case _ => iset{}
  }

  lemma StepsCover(e: Expr, s: Step)
    ensures Child(e, s).Some? ==> s in StepsOf(e)
  {
  }

  lemma {:induction false} PartsPlaces(id: Id, e: Expr, scope: seq<Decl>) returns (r: Places)
    ensures ArePlacesBehind(id, e, scope, StepsOf(e), r)
    ensures |r.all| == PartUses(id, e, scope) && |r.inside| == LamUses(id, e, scope)
    decreases e, 1, Width(e) + 4
  {
    match e
    case Prim(_, args) => r := OperandPlaces(id, e, scope);
    case Call(_, args, _) => r := OperandPlaces(id, e, scope);
    case If(_, _, _) => r := IfPlaces(id, e, scope);
    case Match(_, _) => r := MatchPlaces(id, e, scope);
    case Let(_, _, _) => r := TwoPlaces(id, e, scope);
    case Then(_, _) => r := TwoPlaces(id, e, scope);
    case Lambda(_, _) => r := OnePlaces(id, e, scope, Body);
    case Block(_) => r := BlockPlaces(id, e, scope);
    case _ => r := NoPlaces(id, e, scope, StepsOf(e));
  }

  lemma {:induction false} BlockPlaces(id: Id, e: Expr, scope: seq<Decl>) returns (r: Places)
    requires e.Block?
    ensures ArePlacesBehind(id, e, scope, iset{Body}, r)
    ensures |r.all| == Uses(id, e, scope) && |r.inside| == LamUses(id, e, scope)
    decreases e, 1, 0
  {
    var none: seq<Decl> := [];
    assert scope + none == scope;
    r := OnePlaces(id, e, scope, Body);
  }

  lemma {:induction false} OnePlaces(id: Id, e: Expr, scope: seq<Decl>, s: Step) returns (r: Places)
    requires Child(e, s).Some?
    ensures var c, inner := Child(e, s).value, scope + Binding(e, s);
      && ArePlacesBehind(id, e, scope, iset{s}, r)
      && |r.all| == Uses(id, c, inner) && |r.inside| == if e.Lambda? then Uses(id, c, inner) else LamUses(id, c, inner)
    decreases e, 0
  {
    var c := CountsReads(id, Child(e, s).value, scope + Binding(e, s));
    r := PartPlaces(id, e, scope, s, c);
  }

  lemma {:induction false} IfPlaces(id: Id, e: Expr, scope: seq<Decl>) returns (r: Places)
    requires e.If?
    ensures ArePlacesBehind(id, e, scope, iset{Cond, Yes, No}, r)
    ensures |r.all| == Uses(id, e, scope) && |r.inside| == LamUses(id, e, scope)
    decreases e, 1, 0
  {
    var none: seq<Decl> := [];
    assert scope + none == scope;
    var c := OnePlaces(id, e, scope, Cond);
    var t := OnePlaces(id, e, scope, Yes);
    var u := OnePlaces(id, e, scope, No);
    var ct := BothPlaces(id, e, scope, iset{Cond}, c, iset{Yes}, t);
    r := BothPlaces(id, e, scope, iset{Cond} + iset{Yes}, ct, iset{No}, u);
    assert iset{Cond} + iset{Yes} + iset{No} == iset{Cond, Yes, No};
  }

  lemma {:induction false} TwoPlaces(id: Id, e: Expr, scope: seq<Decl>) returns (r: Places)
    requires e.Let? || e.Then?
    ensures ArePlacesBehind(id, e, scope, iset{First, Body}, r)
    ensures |r.all| == Uses(id, e, scope) && |r.inside| == LamUses(id, e, scope)
    decreases e, 1, 0
  {
    var none: seq<Decl> := [];
    assert scope + none == scope;
    var a := OnePlaces(id, e, scope, First);
    var b := OnePlaces(id, e, scope, Body);
    r := BothPlaces(id, e, scope, iset{First}, a, iset{Body}, b);
    assert iset{First} + iset{Body} == iset{First, Body};
  }

  lemma {:induction false} OperandPlaces(id: Id, e: Expr, scope: seq<Decl>) returns (r: Places)
    requires e.Prim? || e.Call?
    ensures ArePlacesBehind(id, e, scope, ArgSteps(0), r)
    ensures |r.all| == PartUses(id, e, scope) && |r.inside| == LamUses(id, e, scope)
    decreases e, 1, Width(e) + 1
  {
    assert ArgsFrom(e.args, 0) == e.args;
    r := ArgPlaces(id, e, scope, 0);
  }

  lemma {:induction false} MatchPlaces(id: Id, e: Expr, scope: seq<Decl>) returns (r: Places)
    requires e.Match?
    ensures ArePlacesBehind(id, e, scope, iset{Scrutinee} + ArmSteps(0), r)
    ensures |r.all| == Uses(id, e, scope) && |r.inside| == LamUses(id, e, scope)
    decreases e, 1, Width(e) + 3
  {
    var none: seq<Decl> := [];
    assert scope + none == scope && ArmsFrom(e.arms, 0) == e.arms;
    var c := OnePlaces(id, e, scope, Scrutinee);
    var a := ArmPlaces(id, e, scope, 0);
    r := BothPlaces(id, e, scope, iset{Scrutinee}, c, ArmSteps(0), a);
  }

  // ---------- arguments and arms, from the k-th on ----------

  function ArgsFrom(es: Args, k: nat): (r: Args)
    ensures r.Arg? <==> k < Length(es)
    ensures r.Arg? ==> NthArg(es, k) == Some(r.head)
  {
    if k == 0 || es.NoArgs? then es else ArgsFrom(es.rest, k - 1)
  }

  lemma {:induction false} NextArg(es: Args, k: nat)
    requires k < Length(es)
    ensures ArgsFrom(es, k + 1) == ArgsFrom(es, k).rest
    decreases k
  {
    if k > 0 { NextArg(es.rest, k - 1); }
  }

  ghost function ArgSteps(k: nat): iset<Step> {
    iset s: Step | s.ArgOf? && s.k >= k
  }

  lemma NextArgPlaces(id: Id, e: Expr, scope: seq<Decl>, k: nat, arg: Places, rest: Places) returns (r: Places)
    requires ArePlacesBehind(id, e, scope, iset{ArgOf(k)}, arg) && ArePlacesBehind(id, e, scope, ArgSteps(k + 1), rest)
    ensures ArePlacesBehind(id, e, scope, ArgSteps(k), r)
    ensures |r.all| == |arg.all| + |rest.all| && |r.inside| == |arg.inside| + |rest.inside|
  {
    r := BothPlaces(id, e, scope, iset{ArgOf(k)}, arg, ArgSteps(k + 1), rest);
    NextSteps(k);
  }

  lemma {:induction false} ArgPlaces(id: Id, e: Expr, scope: seq<Decl>, k: nat) returns (r: Places)
    requires (e.Prim? || e.Call?) && k <= Length(e.args)
    ensures ArePlacesBehind(id, e, scope, ArgSteps(k), r)
    ensures var es := ArgsFrom(e.args, k); |r.all| == ArgsUses(id, es, scope) && |r.inside| == ArgsLamUses(id, es, scope)
    decreases e, 1, Length(e.args) - k
  {
    if k == Length(e.args) {
      r := NoPlaces(id, e, scope, ArgSteps(k));
    } else {
      var none: seq<Decl> := [];
      assert scope + none == scope;
      NextArg(e.args, k);
      var a := OnePlaces(id, e, scope, ArgOf(k));
      var b := ArgPlaces(id, e, scope, k + 1);
      r := NextArgPlaces(id, e, scope, k, a, b);
    }
  }

  ghost function ArmSteps(k: nat): iset<Step> {
    iset s: Step | (s.GuardOf? || s.BodyOf?) && s.arm >= k
  }

  lemma NextSteps(k: nat)
    ensures ArgSteps(k) == iset{ArgOf(k)} + ArgSteps(k + 1)
    ensures ArmSteps(k) == iset{GuardOf(k)} + iset{BodyOf(k)} + ArmSteps(k + 1)
  {
  }

  lemma {:induction false} NextArm(arms: Arms, k: nat)
    requires k < ArmCount(arms)
    ensures ArmsFrom(arms, k + 1) == ArmsFrom(arms, k).rest
    decreases k
  {
    if k > 0 { NextArm(arms.rest, k - 1); }
  }

  lemma {:induction false} GuardPlaces(id: Id, e: Expr, scope: seq<Decl>, k: nat) returns (r: Places)
    requires e.Match? && k < ArmCount(e.arms)
    ensures ArePlacesBehind(id, e, scope, iset{GuardOf(k)}, r)
    ensures var a, inner := ArmsFrom(e.arms, k), scope + PatDecls(ArmsFrom(e.arms, k).pat);
      && |r.all| == GuardUses(id, a.guard, inner)
      && |r.inside| == if a.guard.NoGuard? then 0 else LamUses(id, a.guard.cond, inner)
    decreases e, 1, 0
  {
    if ArmsFrom(e.arms, k).guard.NoGuard? {
      r := NoPlaces(id, e, scope, iset{GuardOf(k)});
    } else {
      r := OnePlaces(id, e, scope, GuardOf(k));
    }
  }

  lemma {:induction false} OneArmPlaces(id: Id, e: Expr, scope: seq<Decl>, k: nat) returns (r: Places)
    requires e.Match? && k < ArmCount(e.arms)
    ensures ArePlacesBehind(id, e, scope, iset{GuardOf(k)} + iset{BodyOf(k)}, r)
    ensures |r.all| == ArmUses(id, ArmsFrom(e.arms, k), scope) && |r.inside| == ArmLamUses(id, ArmsFrom(e.arms, k), scope)
    decreases e, 1, 1
  {
    var g := GuardPlaces(id, e, scope, k);
    var b := OnePlaces(id, e, scope, BodyOf(k));
    r := BothPlaces(id, e, scope, iset{GuardOf(k)}, g, iset{BodyOf(k)}, b);
  }

  lemma NextArmPlaces(id: Id, e: Expr, scope: seq<Decl>, k: nat, arm: Places, rest: Places) returns (r: Places)
    requires e.Match? && k < ArmCount(e.arms)
    requires ArePlacesBehind(id, e, scope, iset{GuardOf(k)} + iset{BodyOf(k)}, arm) && ArePlacesBehind(id, e, scope, ArmSteps(k + 1), rest)
    ensures ArePlacesBehind(id, e, scope, ArmSteps(k), r)
    ensures |r.all| == |arm.all| + |rest.all| && |r.inside| == |arm.inside| + |rest.inside|
  {
    r := BothPlaces(id, e, scope, iset{GuardOf(k)} + iset{BodyOf(k)}, arm, ArmSteps(k + 1), rest);
    NextSteps(k);
  }

  function ArmUses(id: Id, a: Arms, scope: seq<Decl>): nat
    requires a.Arm?
  {
    GuardUses(id, a.guard, scope + PatDecls(a.pat)) + Uses(id, a.body, scope + PatDecls(a.pat))
  }

  function ArmLamUses(id: Id, a: Arms, scope: seq<Decl>): nat
    requires a.Arm?
  {
    (if a.guard.NoGuard? then 0 else LamUses(id, a.guard.cond, scope + PatDecls(a.pat))) + LamUses(id, a.body, scope + PatDecls(a.pat))
  }

  lemma UsesOfArms(id: Id, arms: Arms, scope: seq<Decl>)
    ensures ArmsUses(id, arms, scope) == if arms.Arm? then ArmUses(id, arms, scope) + ArmsUses(id, arms.rest, scope) else 0
    ensures ArmsLamUses(id, arms, scope) == if arms.Arm? then ArmLamUses(id, arms, scope) + ArmsLamUses(id, arms.rest, scope) else 0
  {
  }

  lemma {:induction false} ArmPlaces(id: Id, e: Expr, scope: seq<Decl>, k: nat) returns (r: Places)
    requires e.Match? && k <= ArmCount(e.arms)
    ensures ArePlacesBehind(id, e, scope, ArmSteps(k), r)
    ensures var arms := ArmsFrom(e.arms, k); |r.all| == ArmsUses(id, arms, scope) && |r.inside| == ArmsLamUses(id, arms, scope)
    decreases e, 1, ArmCount(e.arms) - k + 2
  {
    UsesOfArms(id, ArmsFrom(e.arms, k), scope);
    if k == ArmCount(e.arms) {
      r := NoPlaces(id, e, scope, ArmSteps(k));
    } else {
      NextArm(e.arms, k);
      var arm := OneArmPlaces(id, e, scope, k);
      var rest := ArmPlaces(id, e, scope, k + 1);
      r := NextArmPlaces(id, e, scope, k, arm, rest);
    }
  }

  // ---------- which reads are moves ----------

  /** The pattern of a `let` or of an arm declares `id` here. */
  ghost predicate DeclaresHere(e: Expr, id: Id) {
    || (e.Let? && id in Ids(PatDecls(e.pat)))
    || (e.Match? && exists k: nat :: k < ArmCount(e.arms) && id in Ids(PatDecls(ArmsFrom(e.arms, k).pat)))
  }

  ghost predicate DeclaresAt(e: Expr, path: Path, id: Id) {
    At(e, path).Some? && !InLambda(e, path) && DeclaresHere(At(e, path).value, id)
  }

  ghost predicate RegisteredBehind(e: Expr, s: Step, id: Id) {
    !e.Lambda? && Child(e, s).Some? && id in Registered(Child(e, s).value)
  }

  lemma {:induction false} RegisteredArg(es: Args, id: Id) returns (k: nat)
    requires id in ArgsRegistered(es)
    ensures k < Length(es) && id in Registered(NthArg(es, k).value)
    decreases es
  {
    if id in Registered(es.head) {
      k := 0;
    } else {
      k := RegisteredArg(es.rest, id);
      k := k + 1;
    }
  }

  lemma {:induction false} ArgRegistered(es: Args, id: Id, k: nat)
    requires k < Length(es) && id in Registered(NthArg(es, k).value)
    ensures id in ArgsRegistered(es)
    decreases k
  {
    if k > 0 { ArgRegistered(es.rest, id, k - 1); }
  }

  predicate RegisteredInArm(a: Arms, id: Id) {
    a.Arm? && (id in Ids(PatDecls(a.pat)) || id in Registered(a.body) || (a.guard.When? && id in Registered(a.guard.cond)))
  }

  lemma {:induction false} RegisteredArm(arms: Arms, id: Id) returns (k: nat)
    requires id in ArmsRegistered(arms)
    ensures k < ArmCount(arms) && RegisteredInArm(ArmsFrom(arms, k), id)
    decreases arms
  {
    if RegisteredInArm(arms, id) {
      k := 0;
    } else {
      k := RegisteredArm(arms.rest, id);
      k := k + 1;
    }
  }

  lemma {:induction false} ArmRegistered(arms: Arms, id: Id, k: nat)
    requires k < ArmCount(arms) && RegisteredInArm(ArmsFrom(arms, k), id)
    ensures id in ArmsRegistered(arms)
    decreases k
  {
    if k > 0 { ArmRegistered(arms.rest, id, k - 1); }
  }

  lemma RegisteredStep(e: Expr, id: Id) returns (s: Step)
    requires id in Registered(e) && !DeclaresHere(e, id)
    ensures RegisteredBehind(e, s, id)
  {
    match e
    case Prim(_, args) => var k := RegisteredArg(args, id); s := ArgOf(k);
    case Call(_, args, _) => var k := RegisteredArg(args, id); s := ArgOf(k);
    case If(c, t, _) => s := if id in Registered(c) then Cond else if id in Registered(t) then Yes else No;
    case Match(m, arms) =>
      if id in Registered(m) {
        s := Scrutinee;
      } else {
        var k := RegisteredArm(arms, id);
        s := if id in Registered(ArmsFrom(arms, k).body) then BodyOf(k) else GuardOf(k);
      }
    case Let(_, r, _) => s := if id in Registered(r) then First else Body;
    case Then(a, _) => s := if id in Registered(a) then First else Body;
    case Block(_) => s := Body;
  }

  lemma StepRegistered(e: Expr, s: Step, id: Id)
    requires RegisteredBehind(e, s, id)
    ensures id in Registered(e)
  {
    if s.ArgOf? { ArgRegistered(e.args, id, s.k); }
    if s.GuardOf? || s.BodyOf? { ArmRegistered(e.arms, id, s.arm); }
  }

  lemma {:induction false} RegisteredFound(e: Expr, id: Id) returns (path: Path)
    requires id in Registered(e)
    ensures DeclaresAt(e, path, id)
    decreases e
  {
    path := [];
    if !DeclaresHere(e, id) {
      var s := RegisteredStep(e, id);
      var rest := RegisteredFound(Child(e, s).value, id);
      path := [s] + rest;
      assert path[1..] == rest;
    }
  }

  lemma {:induction false} FoundRegistered(e: Expr, path: Path, id: Id)
    requires DeclaresAt(e, path, id)
    ensures id in Registered(e)
    decreases |path|
  {
    if path == [] {
      if e.Match? {
        var k: nat :| k < ArmCount(e.arms) && id in Ids(PatDecls(ArmsFrom(e.arms, k).pat));
        ArmRegistered(e.arms, id, k);
      }
    } else {
      FoundRegistered(Child(e, path[0]).value, path[1..], id);
      StepRegistered(e, path[0], id);
    }
  }

  /** A variable of the function: a parameter, or declared in its body outside of lambdas. */
  ghost predicate IsVariable(fn: Fn, id: Id) {
    id in Ids(fn.params) || exists path :: DeclaresAt(fn.body, path, id)
  }

  /** It is read in one place of the body, which is not in a lambda, and in no other. */
  ghost predicate ReadOnceAt(fn: Fn, id: Id, path: Path) {
    && Reads(id, fn.body, fn.params, path) && !InLambda(fn.body, path)
    && forall other :: Reads(id, fn.body, fn.params, other) ==> other == path
  }

  /** The reads that move a variable's reference are those of the variables that are read once, and
      not in a lambda. */
  lemma MovedIffReadOnce(fn: Fn, id: Id)
    ensures id in Bare(fn) <==> IsVariable(fn, id) && exists path :: ReadOnceAt(fn, id, path)
  {
    if id in Registered(fn.body) { var path := RegisteredFound(fn.body, id); }
    if path :| DeclaresAt(fn.body, path, id) { FoundRegistered(fn.body, path, id); }
    var r := CountsReads(id, fn.body, fn.params);
    if Uses(id, fn.body, fn.params) == 1 && LamUses(id, fn.body, fn.params) == 0 {
      var path :| path in r.all;
      forall other | other in r.all ensures other == path { OnlyOne(r.all, path, other); }
      assert path !in r.inside;
      assert ReadOnceAt(fn, id, path);
    }
    if path :| ReadOnceAt(fn, id, path) {
      assert r.all == {path};
      assert r.inside == {};
    }
  }

  lemma OnlyOne<T>(s: set<T>, a: T, b: T)
    requires |s| == 1 && a in s && b in s
    ensures a == b
  {
    assert |s - {a}| == 0;
    assert b == a || b in s - {a};
  }

  // ---------- free names, and initialisers that read their own name ----------

  /** At this place `x` is mentioned and nothing on the way binds it. */
  predicate MentionsFree(e: Expr, path: Path, x: Name) {
    At(e, path).Some? && Mentions(At(e, path).value, x) && x !in Names(Around(e, path))
  }

  predicate FreeBehind(e: Expr, s: Step, x: Name) {
    Child(e, s).Some? && x !in Names(Binding(e, s)) && Free(x, Child(e, s).value)
  }

  lemma {:induction false} FreeArg(x: Name, es: Args) returns (k: nat)
    requires FreeArgs(x, es)
    ensures k < Length(es) && Free(x, NthArg(es, k).value)
    decreases es
  {
    if Free(x, es.head) {
      k := 0;
    } else {
      k := FreeArg(x, es.rest);
      k := k + 1;
    }
  }

  lemma {:induction false} ArgFree(x: Name, es: Args, k: nat)
    requires k < Length(es) && Free(x, NthArg(es, k).value)
    ensures FreeArgs(x, es)
    decreases k
  {
    if k > 0 { ArgFree(x, es.rest, k - 1); }
  }

  predicate FreeInArm(x: Name, a: Arms) {
    a.Arm? && x !in Names(PatDecls(a.pat)) && (Free(x, a.body) || (a.guard.When? && Free(x, a.guard.cond)))
  }

  lemma {:induction false} FreeArm(x: Name, arms: Arms) returns (k: nat)
    requires FreeArms(x, arms)
    ensures k < ArmCount(arms) && FreeInArm(x, ArmsFrom(arms, k))
    decreases arms
  {
    if FreeInArm(x, arms) {
      k := 0;
    } else {
      k := FreeArm(x, arms.rest);
      k := k + 1;
    }
  }

  lemma {:induction false} ArmFree(x: Name, arms: Arms, k: nat)
    requires k < ArmCount(arms) && FreeInArm(x, ArmsFrom(arms, k))
    ensures FreeArms(x, arms)
    decreases k
  {
    if k > 0 { ArmFree(x, arms.rest, k - 1); }
  }

  lemma FreeStep(x: Name, e: Expr) returns (s: Step)
    requires Free(x, e) && !Mentions(e, x)
    ensures FreeBehind(e, s, x)
  {
    var none: seq<Decl> := [];
    assert Names(none) == [];
    match e
    case Prim(_, args) => var k := FreeArg(x, args); s := ArgOf(k);
    case Call(_, args, _) => var k := FreeArg(x, args); s := ArgOf(k);
    case If(c, t, _) => s := if Free(x, c) then Cond else if Free(x, t) then Yes else No;
    case Match(m, arms) =>
      if Free(x, m) {
        s := Scrutinee;
      } else {
        var k := FreeArm(x, arms);
        s := if Free(x, ArmsFrom(arms, k).body) then BodyOf(k) else GuardOf(k);
      }
    case Let(_, r, _) => s := if Free(x, r) then First else Body;
    case Then(a, _) => s := if Free(x, a) then First else Body;
    case Lambda(ps, _) => s := Body; NamesOfShadowed(ps);
    case Block(_) => s := Body;
  }

  lemma NamesOfShadowed(ps: seq<Name>)
    ensures Names(Shadowed(ps)) == ps
  {
  }

  lemma StepFree(x: Name, e: Expr, s: Step)
    requires FreeBehind(e, s, x)
    ensures Free(x, e)
  {
    if e.Lambda? { NamesOfShadowed(e.params); }
    if s.ArgOf? { ArgFree(x, e.args, s.k); }
    if s.GuardOf? || s.BodyOf? { ArmFree(x, e.arms, s.arm); }
  }

  lemma NamesAround(e: Expr, path: Path)
    requires path != [] && Child(e, path[0]).Some?
    ensures Names(Around(e, path)) == Names(Binding(e, path[0])) + Names(Around(Child(e, path[0]).value, path[1..]))
  {
  }

  lemma {:induction false} FreeFound(x: Name, e: Expr) returns (path: Path)
    requires Free(x, e)
    ensures MentionsFree(e, path, x)
    decreases e
  {
    path := [];
    if !Mentions(e, x) {
      var s := FreeStep(x, e);
      var rest := FreeFound(x, Child(e, s).value);
      path := [s] + rest;
      assert path[1..] == rest;
      NamesAround(e, path);
    }
  }

  lemma {:induction false} FoundFree(x: Name, e: Expr, path: Path)
    requires MentionsFree(e, path, x)
    ensures Free(x, e)
    decreases |path|
  {
    if path != [] {
      NamesAround(e, path);
      FoundFree(x, Child(e, path[0]).value, path[1..]);
      StepFree(x, e, path[0]);
    }
  }

  /** At this place is a `let` of a name whose initialiser mentions that name, free, at `inner`. */
  predicate SelfReadAt(e: Expr, path: Path, inner: Path) {
    match At(e, path)
    case Some(Let(Bind(d), r, _)) => MentionsFree(r, inner, d.name)
    case _ => false
  }

  lemma {:induction false} SelfReadArg(es: Args) returns (k: nat)
    requires !NoSelfReadArgs(es)
    ensures k < Length(es) && !NoSelfRead(NthArg(es, k).value)
    decreases es
  {
    if !NoSelfRead(es.head) {
      k := 0;
    } else {
      k := SelfReadArg(es.rest);
      k := k + 1;
    }
  }

  lemma {:induction false} ArgSelfRead(es: Args, k: nat)
    requires k < Length(es) && !NoSelfRead(NthArg(es, k).value)
    ensures !NoSelfReadArgs(es)
    decreases k
  {
    if k > 0 { ArgSelfRead(es.rest, k - 1); }
  }

  predicate SelfReadInArm(a: Arms) {
    a.Arm? && (!NoSelfRead(a.body) || (a.guard.When? && !NoSelfRead(a.guard.cond)))
  }

  lemma {:induction false} SelfReadArm(arms: Arms) returns (k: nat)
    requires !NoSelfReadArms(arms)
    ensures k < ArmCount(arms) && SelfReadInArm(ArmsFrom(arms, k))
    decreases arms
  {
    if SelfReadInArm(arms) {
      k := 0;
    } else {
      k := SelfReadArm(arms.rest);
      k := k + 1;
    }
  }

  lemma {:induction false} ArmSelfRead(arms: Arms, k: nat)
    requires k < ArmCount(arms) && SelfReadInArm(ArmsFrom(arms, k))
    ensures !NoSelfReadArms(arms)
    decreases k
  {
    if k > 0 { ArmSelfRead(arms.rest, k - 1); }
  }

  lemma SelfReadStep(e: Expr) returns (s: Step)
    requires !NoSelfRead(e) && !(e.Let? && e.pat.Bind? && Free(e.pat.decl.name, e.rhs))
    ensures Child(e, s).Some? && !NoSelfRead(Child(e, s).value)
  {
    match e
    case Prim(_, args) => var k := SelfReadArg(args); s := ArgOf(k);
    case Call(_, args, _) => var k := SelfReadArg(args); s := ArgOf(k);
    case If(c, t, _) => s := if !NoSelfRead(c) then Cond else if !NoSelfRead(t) then Yes else No;
    case Match(m, arms) =>
      if !NoSelfRead(m) {
        s := Scrutinee;
      } else {
        var k := SelfReadArm(arms);
        s := if !NoSelfRead(ArmsFrom(arms, k).body) then BodyOf(k) else GuardOf(k);
      }
    case Let(_, r, _) => s := if !NoSelfRead(r) then First else Body;
    case Then(a, _) => s := if !NoSelfRead(a) then First else Body;
    case Lambda(_, _) => s := Body;
    case Block(_) => s := Body;
  }

  lemma StepSelfRead(e: Expr, s: Step)
    requires Child(e, s).Some? && !NoSelfRead(Child(e, s).value)
    ensures !NoSelfRead(e)
  {
    if s.ArgOf? { ArgSelfRead(e.args, s.k); }
    if s.GuardOf? || s.BodyOf? { ArmSelfRead(e.arms, s.arm); }
  }

  lemma {:induction false} SelfReadFound(e: Expr) returns (path: Path, inner: Path)
    requires !NoSelfRead(e)
    ensures SelfReadAt(e, path, inner)
    decreases e
  {
    if e.Let? && e.pat.Bind? && Free(e.pat.decl.name, e.rhs) {
      path := [];
      inner := FreeFound(e.pat.decl.name, e.rhs);
    } else {
      var s := SelfReadStep(e);
      path, inner := SelfReadFound(Child(e, s).value);
      var rest := path;
      path := [s] + rest;
      assert path[1..] == rest;
    }
  }

  lemma {:induction false} FoundSelfRead(e: Expr, path: Path, inner: Path)
    requires SelfReadAt(e, path, inner)
    ensures !NoSelfRead(e)
    decreases |path|
  {
    if path == [] {
      FoundFree(e.pat.decl.name, e.rhs, inner);
    } else {
      FoundSelfRead(Child(e, path[0]).value, path[1..], inner);
      StepSelfRead(e, path[0]);
    }
  }

  /** No place of the program has a `let` that reads its own name. */
  lemma SelfReadsByPlace(e: Expr)
    ensures NoSelfRead(e) <==> forall path, inner :: !SelfReadAt(e, path, inner)
  {
    if !NoSelfRead(e) { var path, inner := SelfReadFound(e); }
    forall path, inner | SelfReadAt(e, path, inner) ensures !NoSelfRead(e) { FoundSelfRead(e, path, inner); }
  }

  // ---------- names declared twice ----------

  /** Further on in the same block. */
  predicate SameBlock(e: Expr, path: Path)
    decreases |path|
  {
    path == [] || ((e.Let? || e.Then?) && path[0] == Body && SameBlock(e.body, path[1..]))
  }

  /** The `let` at `e` and one further on in its block declare a C variable of the same name. */
  predicate Clash(e: Expr, path: Path) {
    e.Let? && SameBlock(e.body, path) &&
      match At(e.body, path)
      case Some(Let(p, _, _)) =>
        (exists x <- Names(PatDecls(e.pat)) :: x in Names(PatDecls(p))) || (!e.pat.Bind? && !p.Bind?)
      case _ => false
  }

  ghost predicate DeclaredTwiceHere(e: Expr) {
    || (e.Let? && !Distinct(Names(PatDecls(e.pat))))
    || (e.Lambda? && !Distinct(e.params))
    || (e.Match? && exists k: nat :: RepeatsInArm(e.arms, k))
    || (exists path :: Clash(e, path))
  }

  predicate RepeatsInArm(arms: Arms, k: nat) {
    k < ArmCount(arms) && !Distinct(Names(PatDecls(ArmsFrom(arms, k).pat)))
  }

  /** A `let` further on declares `x`, or takes a value apart. */
  predicate LetsFurther(e: Expr, path: Path, x: Name) {
    SameBlock(e, path) && match At(e, path) case Some(Let(p, _, _)) => x in Names(PatDecls(p)) case _ => false
  }

  predicate UnpacksFurther(e: Expr, path: Path) {
    SameBlock(e, path) && match At(e, path) case Some(Let(p, _, _)) => !p.Bind? case _ => false
  }

  lemma {:induction false} BlockNamesFound(e: Expr, x: Name) returns (path: Path)
    requires x in BlockNames(e)
    ensures LetsFurther(e, path, x)
    decreases e
  {
    path := [];
    if !(e.Let? && x in Names(PatDecls(e.pat))) {
      var rest := BlockNamesFound(e.body, x);
      path := [Body] + rest;
      assert path[1..] == rest;
    }
  }

  lemma {:induction false} FoundBlockNames(e: Expr, path: Path, x: Name)
    requires LetsFurther(e, path, x)
    ensures x in BlockNames(e)
    decreases |path|
  {
    if path != [] { FoundBlockNames(e.body, path[1..], x); }
  }

  lemma {:induction false} UnpackingFound(e: Expr) returns (path: Path)
    requires Unpacking(e) > 0
    ensures UnpacksFurther(e, path)
    decreases e
  {
    path := [];
    if !(e.Let? && !e.pat.Bind?) {
      var rest := UnpackingFound(e.body);
      path := [Body] + rest;
      assert path[1..] == rest;
    }
  }

  lemma {:induction false} FoundUnpacking(e: Expr, path: Path)
    requires UnpacksFurther(e, path)
    ensures Unpacking(e) > 0
    decreases |path|
  {
    if path != [] { FoundUnpacking(e.body, path[1..]); }
  }

  /** What a block declares from a place on, once what it declares further on is right. */
  lemma {:induction false} BlockDeclares(e: Expr)
    requires DeclaredOnce(e)
    ensures Distinct(BlockNames(e)) && Unpacking(e) <= 1
    decreases e
  {
    if e.Then? { BlockDeclares(e.body); }
  }

  lemma LetClashes(e: Expr)
    requires e.Let? && Distinct(BlockNames(e.body)) && Unpacking(e.body) <= 1
    ensures Distinct(BlockNames(e)) && Unpacking(e) <= 1 <==> Distinct(Names(PatDecls(e.pat))) && forall path :: !Clash(e, path)
  {
    var xs, ys := Names(PatDecls(e.pat)), BlockNames(e.body);
    DistinctBoth(xs, ys);
    forall path | Clash(e, path) ensures (exists x <- xs :: x in ys) || (!e.pat.Bind? && Unpacking(e.body) > 0) {
      var p := At(e.body, path).value.pat;
      if !e.pat.Bind? && !p.Bind? {
        FoundUnpacking(e.body, path);
      } else {
        var x :| x in xs && x in Names(PatDecls(p));
        FoundBlockNames(e.body, path, x);
      }
    }
    if x :| x in xs && x in ys {
      var path := BlockNamesFound(e.body, x);
      assert Clash(e, path);
    }
    if !e.pat.Bind? && Unpacking(e.body) > 0 {
      var path := UnpackingFound(e.body);
      assert Clash(e, path);
    }
  }

  lemma {:induction false} TwiceArg(es: Args) returns (k: nat)
    requires !ArgsDeclaredOnce(es)
    ensures k < Length(es) && !DeclaredOnce(NthArg(es, k).value)
    decreases es
  {
    if !DeclaredOnce(es.head) {
      k := 0;
    } else {
      k := TwiceArg(es.rest);
      k := k + 1;
    }
  }

  lemma {:induction false} ArgTwice(es: Args, k: nat)
    requires k < Length(es) && !DeclaredOnce(NthArg(es, k).value)
    ensures !ArgsDeclaredOnce(es)
    decreases k
  {
    if k > 0 { ArgTwice(es.rest, k - 1); }
  }

  predicate TwiceInArm(a: Arms) {
    a.Arm? && (!Distinct(Names(PatDecls(a.pat))) || !DeclaredOnce(a.body) || (a.guard.When? && !DeclaredOnce(a.guard.cond)))
  }

  lemma {:induction false} TwiceArm(arms: Arms) returns (k: nat)
    requires !ArmsDeclaredOnce(arms)
    ensures k < ArmCount(arms) && TwiceInArm(ArmsFrom(arms, k))
    decreases arms
  {
    if TwiceInArm(arms) {
      k := 0;
    } else {
      k := TwiceArm(arms.rest);
      k := k + 1;
    }
  }

  lemma {:induction false} ArmTwice(arms: Arms, k: nat)
    requires k < ArmCount(arms) && TwiceInArm(ArmsFrom(arms, k))
    ensures !ArmsDeclaredOnce(arms)
    decreases k
  {
    if k > 0 { ArmTwice(arms.rest, k - 1); }
  }

  lemma TwiceStep(e: Expr) returns (s: Step)
    requires !DeclaredOnce(e) && !DeclaredTwiceHere(e)
    ensures Child(e, s).Some? && !DeclaredOnce(Child(e, s).value)
  {
    match e
    case Prim(_, args) => var k := TwiceArg(args); s := ArgOf(k);
    case Call(_, args, _) => var k := TwiceArg(args); s := ArgOf(k);
    case If(c, t, _) => s := if !DeclaredOnce(c) then Cond else if !DeclaredOnce(t) then Yes else No;
    case Match(m, arms) =>
      if !DeclaredOnce(m) {
        s := Scrutinee;
      } else {
        var k := TwiceArm(arms);
        assert !RepeatsInArm(arms, k);
        s := if !DeclaredOnce(ArmsFrom(arms, k).body) then BodyOf(k) else GuardOf(k);
      }
    case Let(_, r, b) =>
      s := if !DeclaredOnce(r) then First else Body;
      if DeclaredOnce(b) {
        BlockDeclares(b);
        LetClashes(e);
      }
    case Then(a, _) => s := if !DeclaredOnce(a) then First else Body;
    case Lambda(_, _) => s := Body;
    case Block(_) => s := Body;
  }

  lemma StepTwice(e: Expr, s: Step)
    requires Child(e, s).Some? && !DeclaredOnce(Child(e, s).value)
    ensures !DeclaredOnce(e)
  {
    if s.ArgOf? { ArgTwice(e.args, s.k); }
    if s.GuardOf? || s.BodyOf? { ArmTwice(e.arms, s.arm); }
  }

  lemma HereTwice(e: Expr)
    requires DeclaredTwiceHere(e)
    ensures !DeclaredOnce(e)
  {
    if e.Match? {
      var k: nat :| RepeatsInArm(e.arms, k);
      ArmTwice(e.arms, k);
    } else if e.Let? && DeclaredOnce(e) {
      BlockDeclares(e.body);
      LetClashes(e);
    }
  }

  lemma {:induction false} TwiceFound(e: Expr) returns (path: Path)
    requires !DeclaredOnce(e)
    ensures At(e, path).Some? && DeclaredTwiceHere(At(e, path).value)
    decreases e
  {
    path := [];
    if !DeclaredTwiceHere(e) {
      var s := TwiceStep(e);
      var rest := TwiceFound(Child(e, s).value);
      path := [s] + rest;
      assert path[1..] == rest;
    }
  }

  lemma {:induction false} FoundTwice(e: Expr, path: Path)
    requires At(e, path).Some? && DeclaredTwiceHere(At(e, path).value)
    ensures !DeclaredOnce(e)
    decreases |path|
  {
    if path == [] {
      HereTwice(e);
    } else {
      FoundTwice(Child(e, path[0]).value, path[1..]);
      StepTwice(e, path[0]);
    }
  }

  /** The program can be declared in C iff at no place a pattern or a parameter list repeats a name,
      nor a `let` clashes with one further on in its block. */
  lemma DeclarationsByPlace(e: Expr)
    ensures IsC(e) <==> forall path :: At(e, path).Some? ==> !DeclaredTwiceHere(At(e, path).value)
  {
    DeclarationsAreC(e);
    if !DeclaredOnce(e) { var path := TwiceFound(e); }
    forall path | At(e, path).Some? && DeclaredTwiceHere(At(e, path).value) ensures !DeclaredOnce(e) { FoundTwice(e, path); }
  }
}
