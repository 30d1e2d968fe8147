/** The C that stage 0 emits for a function: local variables whose reference may have moved away,
    and a self-tail-call turned into new values for the parameters and a jump. */
module TailCalls {
  import opened Stage0

  // ---------- marking the self-tail-calls ----------

  function Names(ds: seq<Decl>): (xs: seq<Name>)
    ensures |xs| == |ds| && forall k :: 0 <= k < |ds| ==> xs[k] == ds[k].name
  {
    seq(|ds|, k requires 0 <= k < |ds| => ds[k].name)
  }

  predicate IsSelfCall(shadows: seq<Name>, g: Name, args: Args, f: Name, arity: nat) {
    g == f && f !in shadows && Length(args) == arity
  }

  /** Whether some call in tail position is a self-call. */
  function Walk(shadows: seq<Name>, e: Expr, f: Name, arity: nat): bool
    decreases e
  {
    match e
    case Call(g, args, _) => IsSelfCall(shadows, g, args, f, arity)
    case If(_, t, u) => Walk(shadows, t, f, arity) || Walk(shadows, u, f, arity)
    case Match(_, arms) => WalkArms(shadows, arms, f, arity)
    case Let(pat, _, b) => Walk(shadows + Names(PatDecls(pat)), b, f, arity)
    case Then(_, b) => Walk(shadows, b, f, arity)
    case Block(b) => Walk(shadows, b, f, arity)
    case _ => false
  }

  function WalkArms(shadows: seq<Name>, arms: Arms, f: Name, arity: nat): bool
    decreases arms
  {
    arms.Arm? && (Walk(shadows + Names(PatDecls(arms.pat)), arms.body, f, arity) || WalkArms(shadows, arms.rest, f, arity))
  }

  /** Sets the flag on each of them. */
  function Mark(shadows: seq<Name>, e: Expr, f: Name, arity: nat): Expr
    decreases e
  {
    match e
    case Call(g, args, tail) => Call(g, args, tail || IsSelfCall(shadows, g, args, f, arity))
    case If(c, t, u) => If(c, Mark(shadows, t, f, arity), Mark(shadows, u, f, arity))
    case Match(s, arms) => Match(s, MarkArms(shadows, arms, f, arity))
    case Let(pat, r, b) => Let(pat, r, Mark(shadows + Names(PatDecls(pat)), b, f, arity))
    case Then(a, b) => Then(a, Mark(shadows, b, f, arity))
    case Block(b) => Block(Mark(shadows, b, f, arity))
    case _ => e
  }

  function MarkArms(shadows: seq<Name>, arms: Arms, f: Name, arity: nat): Arms
    decreases arms
  {
    if arms.NoArms? then arms else
      Arm(arms.pat, arms.guard, Mark(shadows + Names(PatDecls(arms.pat)), arms.body, f, arity), MarkArms(shadows, arms.rest, f, arity))
  }

  /** No call carries the flag yet. */
  predicate Unmarked(e: Expr)
    decreases e
  {
    match e
    case Prim(_, args) => UnmarkedArgs(args)
    case Call(_, args, tail) => !tail && UnmarkedArgs(args)
    case If(c, t, u) => Unmarked(c) && Unmarked(t) && Unmarked(u)
    case Match(s, arms) => Unmarked(s) && UnmarkedArms(arms)
    case Let(_, r, b) => Unmarked(r) && Unmarked(b)
    case Then(a, b) => Unmarked(a) && Unmarked(b)
    case Lambda(_, b) => Unmarked(b)
    case Block(b) => Unmarked(b)
    case _ => true
  }

  predicate UnmarkedArgs(es: Args)
    decreases es
  {
    es.Arg? ==> Unmarked(es.head) && UnmarkedArgs(es.rest)
  }

  predicate UnmarkedArms(arms: Arms)
    decreases arms
  {
    arms.Arm? ==> (arms.guard.When? ==> Unmarked(arms.guard.cond)) && Unmarked(arms.body) && UnmarkedArms(arms.rest)
  }

  /** The entry label is planted exactly when a call is marked. */
  lemma {:induction false} LabelIffMarked(shadows: seq<Name>, e: Expr, f: Name, arity: nat)
    requires Unmarked(e)
    ensures Walk(shadows, e, f, arity) <==> !Unmarked(Mark(shadows, e, f, arity))
    ensures Walk(shadows, e, f, arity) <==> Mark(shadows, e, f, arity) != e
    decreases e
  {
    match e
    case If(_, t, u) => LabelIffMarked(shadows, t, f, arity); LabelIffMarked(shadows, u, f, arity);
    case Match(_, arms) => LabelIffMarkedArms(shadows, arms, f, arity);
    case Let(pat, _, b) => LabelIffMarked(shadows + Names(PatDecls(pat)), b, f, arity);
    case Then(_, b) => LabelIffMarked(shadows, b, f, arity);
    case Block(b) => LabelIffMarked(shadows, b, f, arity);
    case _ =>
  }

  lemma {:induction false} LabelIffMarkedArms(shadows: seq<Name>, arms: Arms, f: Name, arity: nat)
    requires UnmarkedArms(arms)
    ensures WalkArms(shadows, arms, f, arity) <==> !UnmarkedArms(MarkArms(shadows, arms, f, arity))
    ensures WalkArms(shadows, arms, f, arity) <==> MarkArms(shadows, arms, f, arity) != arms
    decreases arms
  {
    if arms.Arm? {
      LabelIffMarked(shadows + Names(PatDecls(arms.pat)), arms.body, f, arity);
      LabelIffMarkedArms(shadows, arms.rest, f, arity);
    }
  }

  // ---------- which reads are bare ----------

  /** How often `e` mentions the declaration from inside a lambda. */
  function LamUses(id: Id, e: Expr, scope: seq<Decl>): nat
    decreases e
  {
    match e
    case Lit(_) => 0
    case Var(_) => 0
    case Prim(_, args) => ArgsLamUses(id, args, scope)
    case Call(_, args, _) => ArgsLamUses(id, args, scope)
    case If(c, t, u) => LamUses(id, c, scope) + LamUses(id, t, scope) + LamUses(id, u, scope)
    case Match(s, arms) => LamUses(id, s, scope) + ArmsLamUses(id, arms, scope)
    case Let(p, r, b) => LamUses(id, r, scope) + LamUses(id, b, scope + PatDecls(p))
    case Then(a, b) => LamUses(id, a, scope) + LamUses(id, b, scope)
    case Lambda(ps, b) => Uses(id, b, scope + Shadowed(ps))
    case Block(b) => LamUses(id, b, scope)
  }

  function ArgsLamUses(id: Id, es: Args, scope: seq<Decl>): nat
    decreases es
  {
    if es.NoArgs? then 0 else LamUses(id, es.head, scope) + ArgsLamUses(id, es.rest, scope)
  }

  function ArmsLamUses(id: Id, arms: Arms, scope: seq<Decl>): nat
    decreases arms
  {
    if arms.NoArms? then 0 else
      (if arms.guard.NoGuard? then 0 else LamUses(id, arms.guard.cond, scope + PatDecls(arms.pat)))
      + LamUses(id, arms.body, scope + PatDecls(arms.pat)) + ArmsLamUses(id, arms.rest, scope)
  }

  /** The declarations of a function body, not those inside its lambdas. */
  function Registered(e: Expr): set<Id>
    decreases e
  {
    match e
    case Prim(_, args) => ArgsRegistered(args)
    case Call(_, args, _) => ArgsRegistered(args)
    case If(c, t, u) => Registered(c) + Registered(t) + Registered(u)
    case Match(s, arms) => Registered(s) + ArmsRegistered(arms)
    case Let(p, r, b) => Registered(r) + Ids(PatDecls(p)) + Registered(b)
    case Then(a, b) => Registered(a) + Registered(b)
    case Block(b) => Registered(b)
    case _ => {}
  }

  function ArgsRegistered(es: Args): set<Id>
    decreases es
  {
    if es.NoArgs? then {} else Registered(es.head) + ArgsRegistered(es.rest)
  }

  function ArmsRegistered(arms: Arms): set<Id>
    decreases arms
  {
    if arms.NoArms? then {} else
      Ids(PatDecls(arms.pat)) + (if arms.guard.NoGuard? then {} else Registered(arms.guard.cond))
      + Registered(arms.body) + ArmsRegistered(arms.rest)
  }

  function Ids(ds: seq<Decl>): set<Id> {
    set k | 0 <= k < |ds| :: ds[k].id
  }

  /** The declarations that are read once, and not in a lambda: the read takes their reference. */
  function Bare(fn: Fn): set<Id> {
    set id | id in Ids(fn.params) + Registered(fn.body)
      && Uses(id, fn.body, fn.params) == 1 && LamUses(id, fn.body, fn.params) == 0
  }

  // ---------- the emitted code at run time ----------

  /** A C variable. It may not be set yet, or its reference may have moved to whoever read it. */
  datatype Slot = Slot(decl: Decl, val: Option<V>)
  type Frame = seq<Slot>

  /** Done, a jump to the entry label, or: the program panicked, ran out of fuel, or used a
      variable after its reference moved. */
  datatype Out<T> = Done(v: T, fr: Frame) | Jump(fr: Frame) | Panicked | Hung | Crash

  /** What the emitter knows about the function around the code. Lambdas are emitted as functions
      of their own, outside of any `fn`. */
  datatype Ctx = Ctx(inFn: bool, params: seq<Decl>, bare: set<Id>)
  const InLambda := Ctx(false, [], {})

  function FrameDecls(fr: Frame): (ds: seq<Decl>)
    ensures |ds| == |fr| && forall k :: 0 <= k < |fr| ==> ds[k] == fr[k].decl
  {
    seq(|fr|, k requires 0 <= k < |fr| => fr[k].decl)
  }

  function Full(env: Env): (fr: Frame)
    ensures |fr| == |env| && forall k :: 0 <= k < |env| ==> fr[k] == Slot(env[k].decl, Some(env[k].v))
  {
    seq(|env|, k requires 0 <= k < |env| => Slot(env[k].decl, Some(env[k].v)))
  }

  /** `KaiValue *kai_<name> = <initialiser>;` brings the variable into scope before it is set. */
  function Unset(pat: Pat): Frame {
    if pat.Bind? then [Slot(pat.decl, None)] else []
  }

  /** What the variables of a pattern are set to, by reading along the access paths without a test;
      None if a path leads through a value that has no such part. */
  function Grabs(pat: Pat, v: V): Option<Env> {
    match pat
    case Bind(d) => Some([Bound(d, v)])
    case Con(_, ps) => GrabsAll(ps, v, 0)
    case _ => Some([])
  }

  function GrabsAll(ps: seq<Pat>, v: V, i: nat): Option<Env> {
    if ps == [] then Some([])
    else if PatDecls(ps[0]) == [] then GrabsAll(ps[1..], v, i + 1)
    else if !v.Data? || |v.args| <= i then None
    else match Grabs(ps[0], v.args[i])
      case None => None
      case Some(first) =>
        match GrabsAll(ps[1..], v, i + 1)
        case None => None
        case Some(rest) => Some(first + rest)
  }

  /** A pattern that matches finds its parts. */
  lemma {:induction false} GrabsBinds(pat: Pat, v: V)
    requires Matches(pat, v)
    ensures Grabs(pat, v) == Some(Binds(pat, v))
    decreases pat, 1
  {
    if pat.Con? {
      assert v.args[0..] == v.args;
      GrabsAllBinds(pat.args, v, 0);
    }
  }

  lemma {:induction false} GrabsAllBinds(ps: seq<Pat>, v: V, i: nat)
    requires v.Data? && i + |ps| == |v.args| && AllMatch(ps, v.args[i..])
    ensures GrabsAll(ps, v, i) == Some(AllBinds(ps, v.args[i..]))
    decreases ps, 0
  {
    if ps != [] {
      assert v.args[i..][1..] == v.args[i + 1..];
      GrabsBinds(ps[0], v.args[i]);
      GrabsAllBinds(ps[1..], v, i + 1);
      if PatDecls(ps[0]) == [] {
        assert Decls(Binds(ps[0], v.args[i])) == [];
        assert Binds(ps[0], v.args[i]) + AllBinds(ps[1..], v.args[i + 1..]) == AllBinds(ps[1..], v.args[i + 1..]);
      }
    }
  }

  function Read(p: Program, ctx: Ctx, x: Name, fr: Frame): Out<V> {
    var k := Innermost(FrameDecls(fr), x);
    if k < 0 then (if x in p.fns then Done(FunRef(x), fr) else Panicked)
    else match fr[k].val
      case None => Crash
      case Some(v) => Done(v, if fr[k].decl.id in ctx.bare then fr[k := Slot(fr[k].decl, None)] else fr)
  }

  /** The parameters that still own a reference are dropped. */
  predicate CanDrop(ctx: Ctx, fr: Frame) {
    forall j | 0 <= j < |ctx.params| ::
      var k := Innermost(FrameDecls(fr), ctx.params[j].name);
      ctx.params[j].id !in ctx.bare ==> k >= 0 && fr[k].val.Some?
  }

  /** `kai_<name> = _t<i>` for each parameter: C assigns to the variable of that name that is in
      scope at the call. */
  function Rebind(fr: Frame, params: seq<Decl>, vs: seq<V>): (r: Frame)
    requires |params| == |vs|
    ensures |r| == |fr| && FrameDecls(r) == FrameDecls(fr)
    decreases |params|
  {
    if params == [] then fr else
      var k := Innermost(FrameDecls(fr), params[0].name);
      Rebind(if k < 0 then fr else fr[k := Slot(fr[k].decl, Some(vs[0]))], params[1..], vs[1..])
  }

  function Goto(ctx: Ctx, vs: seq<V>, fr: Frame): Out<V> {
    if !CanDrop(ctx, fr) || |vs| != |ctx.params| || |fr| < |ctx.params| then Crash
    else Jump(Rebind(fr, ctx.params, vs)[..|ctx.params|])
  }

  /** The values that a closure takes along, unless one of them has moved. */
  function Capture(ps: seq<Name>, b: Expr, fr: Frame, all: seq<Decl>): Option<Env> {
    if fr == [] then Some([]) else
      var s := fr[|fr| - 1];
      match Capture(ps, b, fr[..|fr| - 1], all)
      case None => None
      case Some(env) =>
        if Uses(s.decl.id, b, all + Shadowed(ps)) == 0 then Some(env)
        else if s.val.None? then None
        else Some(env + [Bound(Decl(s.decl.name, NoId), s.val.value)])
  }

  function Leave<T>(o: Out<T>, n: nat): Out<T> {
    if o.Done? && n <= |o.fr| then Done(o.v, o.fr[..n]) else o
  }

  function Run(p: Program, ctx: Ctx, fuel: nat, e: Expr, fr: Frame): Out<V>
    decreases fuel, 2, e
  {
    match e
    case Lit(i) => Done(Int(i), fr)
    case Var(x) => Read(p, ctx, x, fr)
    case Prim(op, args) =>
      (match RunArgs(p, ctx, fuel, args, fr)
       case Done(vs, fr1) => (match Operate(p, op, vs) case Val(v) => Done(v, fr1) case _ => Panicked)
       case Jump(_) => Crash
       case Panicked => Panicked
       case Hung => Hung
       case Crash => Crash)
    case Call(f, args, tail) =>
      if tail && ctx.inFn then
        (match RunArgs(p, ctx, fuel, args, fr)
         case Done(vs, fr1) => Goto(ctx, vs, fr1)
         case Jump(_) => Crash
         case Panicked => Panicked
         case Hung => Hung
         case Crash => Crash)
      else
        (match if Innermost(FrameDecls(fr), f) >= 0 then Read(p, ctx, f, fr) else Done(FunRef(f), fr)
         case Done(fv, fr1) =>
           (match RunArgs(p, ctx, fuel, args, fr1)
            case Done(vs, fr2) => RunApply(p, fuel, fv, vs, fr2)
            case Jump(_) => Crash
            case Panicked => Panicked
            case Hung => Hung
            case Crash => Crash)
         case o => o)
    case If(c, t, u) =>
      (match Run(p, ctx, fuel, c, fr)
       case Done(v, fr1) => if Truthy(v) then Run(p, ctx, fuel, t, fr1) else Run(p, ctx, fuel, u, fr1)
       case o => o)
    case Match(s, arms) =>
      (match Run(p, ctx, fuel, s, fr)
       case Done(v, fr1) => RunArms(p, ctx, fuel, v, arms, fr1)
       case o => o)
    case Let(pat, r, b) =>
      (match Run(p, ctx, fuel, r, fr + Unset(pat))
       case Done(v, fr1) =>
         if |fr1| < |fr| then Crash
         else (match Grabs(pat, v)
           case None => Crash
           case Some(more) => Leave(Run(p, ctx, fuel, b, fr1[..|fr|] + Full(more)), |fr|))
       case o => o)
    case Then(a, b) =>
      (match Run(p, ctx, fuel, a, fr)
       case Done(_, fr1) => Run(p, ctx, fuel, b, fr1)
       case o => o)
    case Lambda(ps, b) =>
      (match Capture(ps, b, fr, FrameDecls(fr))
       case None => Crash
       case Some(env) => Done(Closure(ps, b, env), fr))
    case Block(b) => Run(p, ctx, fuel, b, fr)
  }

  function RunArgs(p: Program, ctx: Ctx, fuel: nat, es: Args, fr: Frame): Out<seq<V>>
    decreases fuel, 2, es
  {
    if es.NoArgs? then Done([], fr) else
      match Run(p, ctx, fuel, es.head, fr)
      case Jump(fr1) => Jump(fr1)
      case Panicked => Panicked
      case Hung => Hung
      case Crash => Crash
      case Done(v, fr1) =>
        match RunArgs(p, ctx, fuel, es.rest, fr1)
        case Done(vs, fr2) => Done([v] + vs, fr2)
        case o => o
  }

  function RunArms(p: Program, ctx: Ctx, fuel: nat, v: V, arms: Arms, fr: Frame): Out<V>
    decreases fuel, 2, arms
  {
    if arms.NoArms? then Panicked
    else if !Matches(arms.pat, v) then RunArms(p, ctx, fuel, v, arms.rest, fr)
    else
      var inner := fr + Full(Binds(arms.pat, v));
      match arms.guard
      case NoGuard => Leave(Run(p, ctx, fuel, arms.body, inner), |fr|)
      case When(c) =>
        match Run(p, ctx, fuel, c, inner)
        case Done(g, fr1) =>
          if Truthy(g) then Leave(Run(p, ctx, fuel, arms.body, fr1), |fr|)
          else if |fr1| < |fr| then Crash
          else RunArms(p, ctx, fuel, v, arms.rest, fr1[..|fr|])
        case o => o
  }

  function RunApply(p: Program, fuel: nat, f: V, vs: seq<V>, fr: Frame): Out<V>
    decreases fuel, 1
  {
    match f
    case FunRef(g) =>
      if g !in p.fns || |vs| != |p.fns[g].params| then Panicked
      else Back(RunFn(p, fuel, g, Full(Zip(p.fns[g].params, vs))), fr)
    case Closure(ps, b, env) =>
      if |ps| != |vs| then Panicked
      else if fuel == 0 then Hung
      else Back(Run(p, InLambda, fuel - 1, b, Full(Zip(Shadowed(ps), vs) + env)), fr)
    case _ => Panicked
  }

  /** Back in the caller's frame. */
  function Back(o: Out<V>, fr: Frame): Out<V> {
    match o
    case Done(v, _) => Done(v, fr)
    case Jump(_) => Crash
    case o => o
  }

  /** The body of a function from its entry label, with the frame of its parameters. */
  function RunFn(p: Program, fuel: nat, f: Name, fr: Frame): Out<V>
    requires f in p.fns
    decreases fuel, 0
  {
    if fuel == 0 then Hung else
      var fn := p.fns[f];
      match Run(p, Ctx(true, fn.params, Bare(fn)), fuel - 1, Mark([], fn.body, f, |fn.params|), fr)
      case Jump(fr1) => RunFn(p, fuel - 1, f, fr1)
      case o => o
  }
}
