/** Places in a tree, named by the steps that lead to them. What the code generator decides by walking
    a tree is stated here for each place on its own: which calls are jumps, which reads are moves. */
module TreePaths {
  import opened Stage0
  import opened TailCalls

  /** From an expression to one of its parts. */
  datatype Step =
    | Cond | Yes | No
    | Scrutinee | GuardOf(arm: nat) | BodyOf(arm: nat)
    | ArgOf(k: nat)
    | First
    | Body

  type Path = seq<Step>

  function NthArg(es: Args, k: nat): (c: Option<Expr>)
    ensures c.Some? <==> k < Length(es)
    ensures c.Some? ==> c.value < es
  {
    if es.NoArgs? then None else if k == 0 then Some(es.head) else NthArg(es.rest, k - 1)
  }

  function ArmCount(arms: Arms): nat {
    if arms.NoArms? then 0 else ArmCount(arms.rest) + 1
  }

  /** The arms from the k-th on. */
  function ArmsFrom(arms: Arms, k: nat): (r: Arms)
    ensures r.Arm? <==> k < ArmCount(arms)
    ensures r == arms || r < arms
  {
    if k == 0 || arms.NoArms? then arms else ArmsFrom(arms.rest, k - 1)
  }

  function Child(e: Expr, s: Step): (c: Option<Expr>)
    ensures c.Some? ==> c.value < e
  {
    match s
    case Cond => if e.If? then Some(e.cond) else None
    case Yes => if e.If? then Some(e.yes) else None
    case No => if e.If? then Some(e.no) else None
    case Scrutinee => if e.Match? then Some(e.scrutinee) else None
    case GuardOf(k) =>
      if e.Match? && k < ArmCount(e.arms) && ArmsFrom(e.arms, k).guard.When? then Some(ArmsFrom(e.arms, k).guard.cond) else None
    case BodyOf(k) => if e.Match? && k < ArmCount(e.arms) then Some(ArmsFrom(e.arms, k).body) else None
    case ArgOf(k) => if e.Prim? || e.Call? then NthArg(e.args, k) else None
    case First => if e.Let? then Some(e.rhs) else if e.Then? then Some(e.first) else None
    case Body => if e.Let? || e.Then? || e.Lambda? || e.Block? then Some(e.body) else None
  }

  /** What comes into scope on that step. */
  function Binding(e: Expr, s: Step): seq<Decl> {
    match s
    case GuardOf(k) => if e.Match? && k < ArmCount(e.arms) then PatDecls(ArmsFrom(e.arms, k).pat) else []
    case BodyOf(k) => if e.Match? && k < ArmCount(e.arms) then PatDecls(ArmsFrom(e.arms, k).pat) else []
    case Body => if e.Let? then PatDecls(e.pat) else if e.Lambda? then Shadowed(e.params) else []
    case _ => []
  }

  /** The expression at a place, if there is such a place. */
  function At(e: Expr, path: Path): (c: Option<Expr>)
    decreases |path|
  {
    if path == [] then Some(e)
    else if Child(e, path[0]).None? then None
    else At(Child(e, path[0]).value, path[1..])
  }

  /** What comes into scope on the way, the innermost last. */
  function Around(e: Expr, path: Path): seq<Decl>
    decreases |path|
  {
    if path == [] || Child(e, path[0]).None? then []
    else Binding(e, path[0]) + Around(Child(e, path[0]).value, path[1..])
  }

  // ---------- tail position ----------

  /** The value of the part is the value of the whole. */
  predicate TailStep(e: Expr, s: Step) {
    || (e.If? && (s.Yes? || s.No?))
    || (e.Match? && s.BodyOf?)
    || ((e.Let? || e.Then? || e.Block?) && s.Body?)
  }

  predicate InTail(e: Expr, path: Path)
    decreases |path|
  {
    path == [] || (TailStep(e, path[0]) && Child(e, path[0]).Some? && InTail(Child(e, path[0]).value, path[1..]))
  }

  /** At this place the function calls itself, with as many arguments as it takes. */
  predicate CallsItself(e: Expr, path: Path, f: Name, arity: nat) {
    match At(e, path)
    case Some(Call(g, args, _)) => g == f && Length(args) == arity
    case _ => false
  }

  /** A call in tail position, of the function and not of a variable of its name. */
  predicate TailCallsItself(shadows: seq<Name>, e: Expr, path: Path, f: Name, arity: nat) {
    InTail(e, path) && CallsItself(e, path, f, arity) && f !in shadows + Names(Around(e, path))
  }

  predicate IsFlagged(e: Expr) {
    e.Call? && e.tail
  }

  /** The same but for the parts, and for the flag of a call. */
  predicate SameHead(a: Expr, b: Expr) {
    match (a, b)
    case (Lit(i), Lit(j)) => i == j
    case (Var(x), Var(y)) => x == y
    case (Prim(o, _), Prim(q, _)) => o == q
    case (Call(f, _, _), Call(g, _, _)) => f == g
    case (If(_, _, _), If(_, _, _)) => true
    case (Match(_, s), Match(_, t)) =>
      ArmCount(s) == ArmCount(t) && forall k :: 0 <= k < ArmCount(s) ==> ArmsFrom(s, k).pat == ArmsFrom(t, k).pat
    case (Let(p, _, _), Let(q, _, _)) => p == q
    case (Then(_, _), Then(_, _)) => true
    case (Lambda(ps, _), Lambda(qs, _)) => ps == qs
    case (Block(_), Block(_)) => true
    case _ => false
  }

  lemma {:induction false} MarkedArm(shadows: seq<Name>, arms: Arms, f: Name, arity: nat, k: nat)
    requires k < ArmCount(arms)
    ensures var arms' := MarkArms(shadows, arms, f, arity);
      && ArmCount(arms') == ArmCount(arms)
      && var a, a' := ArmsFrom(arms, k), ArmsFrom(arms', k);
        a'.pat == a.pat && a'.guard == a.guard && a'.body == Mark(shadows + Names(PatDecls(a.pat)), a.body, f, arity)
    decreases k
  {
    MarkedCount(shadows, arms, f, arity);
    if k > 0 { MarkedArm(shadows, arms.rest, f, arity, k - 1); }
  }

  lemma {:induction false} MarkedCount(shadows: seq<Name>, arms: Arms, f: Name, arity: nat)
    ensures ArmCount(MarkArms(shadows, arms, f, arity)) == ArmCount(arms)
    decreases arms
  {
    if arms.Arm? { MarkedCount(shadows, arms.rest, f, arity); }
  }

  lemma {:induction false} UnmarkedArm(arms: Arms, k: nat)
    requires UnmarkedArms(arms) && k < ArmCount(arms)
    ensures var a := ArmsFrom(arms, k); Unmarked(a.body) && (a.guard.When? ==> Unmarked(a.guard.cond))
    decreases k
  {
    if k > 0 { UnmarkedArm(arms.rest, k - 1); }
  }

  lemma {:induction false} UnmarkedArg(es: Args, k: nat)
    requires UnmarkedArgs(es) && k < Length(es)
    ensures Unmarked(NthArg(es, k).value)
    decreases k
  {
    if k > 0 { UnmarkedArg(es.rest, k - 1); }
  }

  lemma UnmarkedChild(e: Expr, s: Step)
    requires Unmarked(e) && Child(e, s).Some?
    ensures Unmarked(Child(e, s).value)
  {
    match s
    case GuardOf(k) => UnmarkedArm(e.arms, k);
    case BodyOf(k) => UnmarkedArm(e.arms, k);
    case ArgOf(k) => UnmarkedArg(e.args, k);
    case _ =>
  }

  lemma {:induction false} UnmarkedAt(e: Expr, path: Path)
    requires Unmarked(e) && At(e, path).Some?
    ensures !IsFlagged(At(e, path).value)
    decreases |path|
  {
    if path != [] {
      UnmarkedChild(e, path[0]);
      UnmarkedAt(Child(e, path[0]).value, path[1..]);
    }
  }

  /** What the marking does to the part behind a step: it goes on behind a tail step, and leaves
      every other part alone. */
  lemma MarkedChild(shadows: seq<Name>, e: Expr, f: Name, arity: nat, s: Step)
    ensures var m := Mark(shadows, e, f, arity);
      Child(m, s) ==
        if Child(e, s).None? then None
        else if TailStep(e, s) then Some(Mark(shadows + Names(Binding(e, s)), Child(e, s).value, f, arity))
        else Child(e, s)
  {
    var empty: seq<Decl> := [];
    assert Names(empty) == [] && shadows + [] == shadows;
    if e.Match? && (s.GuardOf? || s.BodyOf?) {
      MarkedCount(shadows, e.arms, f, arity);
      if s.arm < ArmCount(e.arms) { MarkedArm(shadows, e.arms, f, arity, s.arm); }
    }
  }

  lemma NoneAround(shadows: seq<Name>, e: Expr)
    ensures shadows + Names(Around(e, [])) == shadows
  {
  }

  /** One step further on. */
  lemma FurtherOn(shadows: seq<Name>, e: Expr, path: Path, f: Name, arity: nat)
    requires path != [] && Child(e, path[0]).Some?
    ensures var s, c := path[0], Child(e, path[0]).value;
      TailCallsItself(shadows, e, path, f, arity) <==> TailStep(e, s) && TailCallsItself(shadows + Names(Binding(e, s)), c, path[1..], f, arity)
  {
    NamesAppend(Binding(e, path[0]), Around(Child(e, path[0]).value, path[1..]));
  }

  lemma NamesAppend(a: seq<Decl>, b: seq<Decl>)
    ensures Names(a + b) == Names(a) + Names(b)
  {
  }

  lemma MarkedHead(shadows: seq<Name>, e: Expr, f: Name, arity: nat)
    ensures SameHead(e, Mark(shadows, e, f, arity))
    ensures Unmarked(e) ==> (IsFlagged(Mark(shadows, e, f, arity)) <==> TailCallsItself(shadows, e, [], f, arity))
  {
    NoneAround(shadows, e);
    if e.Match? {
      MarkedCount(shadows, e.arms, f, arity);
      forall k | 0 <= k < ArmCount(e.arms) ensures ArmsFrom(e.arms, k).pat == ArmsFrom(MarkArms(shadows, e.arms, f, arity), k).pat {
        MarkedArm(shadows, e.arms, f, arity, k);
      }
    }
  }

  /** The marking sets the flag of the tail calls of the function to itself, wherever they are, and
      changes nothing else. */
  lemma {:induction false} MarksTheTailCalls(shadows: seq<Name>, e: Expr, f: Name, arity: nat, path: Path)
    requires Unmarked(e)
    ensures var c, m := At(e, path), At(Mark(shadows, e, f, arity), path);
      && (m.Some? <==> c.Some?)
      && (c.Some? ==> SameHead(c.value, m.value) && (IsFlagged(m.value) <==> TailCallsItself(shadows, e, path, f, arity)))
    decreases |path|
  {
    if path == [] {
      MarkedHead(shadows, e, f, arity);
    } else {
      var s, rest := path[0], path[1..];
      MarkedChild(shadows, e, f, arity, s);
      if Child(e, s).Some? {
        var c, more := Child(e, s).value, Names(Binding(e, s));
        UnmarkedChild(e, s);
        FurtherOn(shadows, e, path, f, arity);
        if TailStep(e, s) {
          MarksTheTailCalls(shadows + more, c, f, arity, rest);
        } else if At(e, path).Some? {
          UnmarkedAt(c, rest);
          HeadOfItself(At(e, path).value);
        }
      }
    }
  }

  lemma HeadOfItself(e: Expr)
    ensures SameHead(e, e)
  {
  }

  /** The walk finds a call in the k-th arm. */
  predicate FoundInArm(shadows: seq<Name>, arms: Arms, f: Name, arity: nat, k: nat) {
    k < ArmCount(arms) && Walk(shadows + Names(PatDecls(ArmsFrom(arms, k).pat)), ArmsFrom(arms, k).body, f, arity)
  }

  lemma {:induction false} WalkedArm(shadows: seq<Name>, arms: Arms, f: Name, arity: nat) returns (k: nat)
    requires WalkArms(shadows, arms, f, arity)
    ensures FoundInArm(shadows, arms, f, arity, k)
    decreases arms
  {
    if Walk(shadows + Names(PatDecls(arms.pat)), arms.body, f, arity) {
      k := 0;
    } else {
      k := WalkedArm(shadows, arms.rest, f, arity);
      k := k + 1;
    }
  }

  lemma {:induction false} ArmWalked(shadows: seq<Name>, arms: Arms, f: Name, arity: nat, k: nat)
    requires FoundInArm(shadows, arms, f, arity, k)
    ensures WalkArms(shadows, arms, f, arity)
    decreases k
  {
    if k > 0 { ArmWalked(shadows, arms.rest, f, arity, k - 1); }
  }

  /** The walk says yes exactly if there is such a call. */
  lemma {:induction false} WalkFindsTailCalls(shadows: seq<Name>, e: Expr, f: Name, arity: nat)
    ensures Walk(shadows, e, f, arity) <==> exists path :: TailCallsItself(shadows, e, path, f, arity)
    decreases e
  {
    if Walk(shadows, e, f, arity) {
      var path := TailCallFound(shadows, e, f, arity);
    }
    if path :| TailCallsItself(shadows, e, path, f, arity) {
      TailCallWalked(shadows, e, f, arity, path);
    }
  }

  lemma {:induction false} TailCallFound(shadows: seq<Name>, e: Expr, f: Name, arity: nat) returns (path: Path)
    requires Walk(shadows, e, f, arity)
    ensures TailCallsItself(shadows, e, path, f, arity)
    decreases e
  {
    if e.Call? {
      path := [];
      NoneAround(shadows, e);
    } else {
      var s := TailStepTaken(shadows, e, f, arity);
      var more := Names(Binding(e, s));
      var rest := TailCallFound(shadows + more, Child(e, s).value, f, arity);
      path := [s] + rest;
      assert path[1..] == rest;
      FurtherOn(shadows, e, path, f, arity);
    }
  }

  lemma TailStepTaken(shadows: seq<Name>, e: Expr, f: Name, arity: nat) returns (s: Step)
    requires Walk(shadows, e, f, arity) && !e.Call?
    ensures TailStep(e, s) && Child(e, s).Some? && Walk(shadows + Names(Binding(e, s)), Child(e, s).value, f, arity)
  {
    var empty: seq<Decl> := [];
    assert Names(empty) == [] && shadows + [] == shadows;
    match e
    case If(_, t, u) => s := if Walk(shadows, t, f, arity) then Yes else No;
    case Match(_, arms) =>
      var k := WalkedArm(shadows, arms, f, arity);
      s := BodyOf(k);
    case _ => s := Body;
  }

  lemma {:induction false} TailCallWalked(shadows: seq<Name>, e: Expr, f: Name, arity: nat, path: Path)
    requires TailCallsItself(shadows, e, path, f, arity)
    ensures Walk(shadows, e, f, arity)
    decreases |path|
  {
    if path == [] {
      NoneAround(shadows, e);
    } else {
      var s, rest := path[0], path[1..];
      var c, more := Child(e, s).value, Names(Binding(e, s));
      FurtherOn(shadows, e, path, f, arity);
      TailCallWalked(shadows + more, c, f, arity, rest);
      WalkedThrough(shadows, e, f, arity, s);
    }
  }

  lemma WalkedThrough(shadows: seq<Name>, e: Expr, f: Name, arity: nat, s: Step)
    requires TailStep(e, s) && Child(e, s).Some? && Walk(shadows + Names(Binding(e, s)), Child(e, s).value, f, arity)
    ensures Walk(shadows, e, f, arity)
  {
    var empty: seq<Decl> := [];
    assert Names(empty) == [] && shadows + [] == shadows;
    if e.Match? { ArmWalked(shadows, e.arms, f, arity, s.arm); }
  }
}
