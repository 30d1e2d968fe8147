/** The passes over a function body that come before its code is emitted: counting how often each
    declaration is read, and marking the self-tail-calls. */
module UseCount {
  import opened Stage0
  import opened TailCalls

  // ---------- declarations ----------

  /** All the declarations in an expression, those inside its lambdas too. */
  function Binders(e: Expr): set<Id>
    decreases e
  {
    match e
    case Prim(_, args) => ArgsBinders(args)
    case Call(_, args, _) => ArgsBinders(args)
    case If(c, t, u) => Binders(c) + Binders(t) + Binders(u)
    case Match(s, arms) => Binders(s) + ArmsBinders(arms)
    case Let(p, r, b) => Binders(r) + Ids(PatDecls(p)) + Binders(b)
    case Then(a, b) => Binders(a) + Binders(b)
    case Lambda(_, b) => Binders(b)
    case Block(b) => Binders(b)
    case _ => {}
  }

  function ArgsBinders(es: Args): set<Id>
    decreases es
  {
    if es.NoArgs? then {} else Binders(es.head) + ArgsBinders(es.rest)
  }

  function GuardBinders(g: Guard): set<Id>
    decreases g
  {
    if g.NoGuard? then {} else Binders(g.cond)
  }

  function ArmsBinders(arms: Arms): set<Id>
    decreases arms
  {
    if arms.NoArms? then {} else
      Ids(PatDecls(arms.pat)) + GuardBinders(arms.guard) + Binders(arms.body) + ArmsBinders(arms.rest)
  }

  /** Each declaration is a node of its own: no two places of a tree have the same one. */
  predicate Apart(e: Expr)
    decreases e
  {
    match e
    case Prim(_, args) => ApartArgs(args)
    case Call(_, args, _) => ApartArgs(args)
    case If(c, t, u) => Apart(c) && Apart(t) && Apart(u) && Binders(c) !! Binders(t) !! Binders(u)
    case Match(s, arms) => Apart(s) && ApartArms(arms) && Binders(s) !! ArmsBinders(arms)
    case Let(p, r, b) => Apart(r) && Apart(b) && Binders(r) !! Ids(PatDecls(p)) !! Binders(b)
    case Then(a, b) => Apart(a) && Apart(b) && Binders(a) !! Binders(b)
    case Lambda(_, b) => Apart(b)
    case Block(b) => Apart(b)
    case _ => true
  }

  predicate ApartArgs(es: Args)
    decreases es
  {
    es.Arg? ==> Apart(es.head) && ApartArgs(es.rest) && Binders(es.head) !! ArgsBinders(es.rest)
  }

  predicate ApartArms(arms: Arms)
    decreases arms
  {
    arms.Arm? ==>
      && (arms.guard.When? ==> Apart(arms.guard.cond)) && Apart(arms.body) && ApartArms(arms.rest)
      && Ids(PatDecls(arms.pat)) !! GuardBinders(arms.guard) !! Binders(arms.body) !! ArmsBinders(arms.rest)
  }

  lemma {:induction false} RegisteredBinders(e: Expr)
    ensures Registered(e) <= Binders(e)
    decreases e
  {
    match e
    case Prim(_, args) => RegisteredArgs(args);
    case Call(_, args, _) => RegisteredArgs(args);
    case If(c, t, u) => RegisteredBinders(c); RegisteredBinders(t); RegisteredBinders(u);
    case Match(s, arms) => RegisteredBinders(s); RegisteredArms(arms);
    case Let(_, r, b) => RegisteredBinders(r); RegisteredBinders(b);
    case Then(a, b) => RegisteredBinders(a); RegisteredBinders(b);
    case Block(b) => RegisteredBinders(b);
    case _ =>
  }

  lemma {:induction false} RegisteredArgs(es: Args)
    ensures ArgsRegistered(es) <= ArgsBinders(es)
    decreases es
  {
    if es.Arg? { RegisteredBinders(es.head); RegisteredArgs(es.rest); }
  }

  lemma {:induction false} RegisteredArms(arms: Arms)
    ensures ArmsRegistered(arms) <= ArmsBinders(arms)
    decreases arms
  {
    if arms.Arm? {
      if arms.guard.When? { RegisteredBinders(arms.guard.cond); }
      RegisteredBinders(arms.body);
      RegisteredArms(arms.rest);
    }
  }

  /** A declaration that is neither in scope nor declared inside is not used. */
  lemma {:induction false} Unused(id: Id, e: Expr, scope: seq<Decl>)
    requires id !in Ids(scope) && id !in Binders(e) && id != NoId
    ensures Uses(id, e, scope) == 0 && LamUses(id, e, scope) == 0
    decreases e
  {
    match e
    case Lit(_) =>
    case Var(x) =>
    case Prim(_, args) => UnusedArgs(id, args, scope);
    case Call(_, args, _) => UnusedArgs(id, args, scope);
    case If(c, t, u) => Unused(id, c, scope); Unused(id, t, scope); Unused(id, u, scope);
    case Match(s, arms) => Unused(id, s, scope); UnusedArms(id, arms, scope);
    case Let(p, r, b) => Unused(id, r, scope); IdsAppend(scope, PatDecls(p)); Unused(id, b, scope + PatDecls(p));
    case Then(a, b) => Unused(id, a, scope); Unused(id, b, scope);
    case Lambda(ps, b) => IdsAppend(scope, Shadowed(ps)); Unused(id, b, scope + Shadowed(ps));
    case Block(b) => Unused(id, b, scope);
  }

  lemma {:induction false} UnusedArgs(id: Id, es: Args, scope: seq<Decl>)
    requires id !in Ids(scope) && id !in ArgsBinders(es) && id != NoId
    ensures ArgsUses(id, es, scope) == 0 && ArgsLamUses(id, es, scope) == 0
    decreases es
  {
    if es.Arg? { Unused(id, es.head, scope); UnusedArgs(id, es.rest, scope); }
  }

  lemma {:induction false} UnusedArms(id: Id, arms: Arms, scope: seq<Decl>)
    requires id !in Ids(scope) && id !in ArmsBinders(arms) && id != NoId
    ensures ArmsUses(id, arms, scope) == 0 && ArmsLamUses(id, arms, scope) == 0
    decreases arms
  {
    if arms.Arm? {
      var inner := scope + PatDecls(arms.pat);
      IdsAppend(scope, PatDecls(arms.pat));
      if arms.guard.When? { Unused(id, arms.guard.cond, inner); }
      Unused(id, arms.body, inner);
      UnusedArms(id, arms.rest, scope);
    }
  }

  lemma IdsAppend(a: seq<Decl>, b: seq<Decl>)
    ensures Ids(a + b) == Ids(a) + Ids(b)
  {
    forall id ensures id in Ids(a + b) <==> id in Ids(a) + Ids(b) {
      if k :| 0 <= k < |a| && a[k].id == id { assert (a + b)[k].id == id; }
      if k :| 0 <= k < |b| && b[k].id == id { assert (a + b)[|a| + k].id == id; }
    }
  }

  // ---------- the table ----------

  datatype Use = Use(total: nat, lambda: nat)
  type Table = map<Id, Use>

  function At(t: Table, id: Id): Use {
    if id in t then t[id] else Use(0, 0)
  }

  /** `b` is `a` after more uses. Inside a lambda every use is a lambda use. */
  predicate Grown(a: Use, b: Use, inLambda: bool, uses: nat, lamUses: nat) {
    b.total == a.total + uses && b.lambda == a.lambda + if inLambda then uses else lamUses
  }

  /** `now` is the table after a walk over `e`. */
  ghost predicate Counted(was: Table, now: Table, e: Expr, scope: seq<Decl>, inLambda: bool) {
    && now.Keys == was.Keys + (if inLambda then {} else Registered(e))
    && forall id <- now :: Grown(At(was, id), now[id], inLambda, Uses(id, e, scope), LamUses(id, e, scope))
  }

  ghost predicate CountedArgs(was: Table, now: Table, es: Args, scope: seq<Decl>, inLambda: bool) {
    && now.Keys == was.Keys + (if inLambda then {} else ArgsRegistered(es))
    && forall id <- now :: Grown(At(was, id), now[id], inLambda, ArgsUses(id, es, scope), ArgsLamUses(id, es, scope))
  }

  ghost predicate CountedArms(was: Table, now: Table, arms: Arms, scope: seq<Decl>, inLambda: bool) {
    && now.Keys == was.Keys + (if inLambda then {} else ArmsRegistered(arms))
    && forall id <- now :: Grown(At(was, id), now[id], inLambda, ArmsUses(id, arms, scope), ArmsLamUses(id, arms, scope))
  }

  /** The declarations still to come are in neither the table nor the scope. */
  predicate Coming(binders: set<Id>, t: Table, scope: seq<Decl>) {
    binders !! t.Keys && binders !! Ids(scope) && NoId !in binders && NoId !in t
  }

  /** After the first of two parts. */
  lemma Goes(binders: set<Id>, t: Table, scope: seq<Decl>, done: set<Id>, later: set<Id>, mid: Table, registered: set<Id>)
    requires Coming(binders, t, scope) && done !! later && done + later <= binders
    requires mid.Keys <= t.Keys + registered && registered <= done
    ensures Coming(later, mid, scope)
  {
  }

  lemma ThenCounts(was: Table, mid: Table, now: Table, e: Expr, scope: seq<Decl>, inLambda: bool)
    requires e.Then? && Apart(e) && Coming(Binders(e), was, scope)
    requires Counted(was, mid, e.first, scope, inLambda) && Counted(mid, now, e.body, scope, inLambda)
    ensures Counted(was, now, e, scope, inLambda)
  {
    RegisteredBinders(e.body);
    forall id <- now ensures Grown(At(was, id), now[id], inLambda, Uses(id, e, scope), LamUses(id, e, scope)) {
      if id !in mid { Unused(id, e.first, scope); }
    }
  }

  lemma IfCounts(was: Table, t1: Table, t2: Table, now: Table, e: Expr, scope: seq<Decl>, inLambda: bool)
    requires e.If? && Apart(e) && Coming(Binders(e), was, scope)
    requires Counted(was, t1, e.cond, scope, inLambda) && Counted(t1, t2, e.yes, scope, inLambda) && Counted(t2, now, e.no, scope, inLambda)
    ensures Counted(was, now, e, scope, inLambda)
  {
    RegisteredBinders(e.yes);
    RegisteredBinders(e.no);
    forall id <- now ensures Grown(At(was, id), now[id], inLambda, Uses(id, e, scope), LamUses(id, e, scope)) {
      if id !in t1 { Unused(id, e.cond, scope); }
      if id !in t2 { Unused(id, e.yes, scope); }
    }
  }

  lemma MatchCounts(was: Table, mid: Table, now: Table, e: Expr, scope: seq<Decl>, inLambda: bool)
    requires e.Match? && Apart(e) && Coming(Binders(e), was, scope)
    requires Counted(was, mid, e.scrutinee, scope, inLambda) && CountedArms(mid, now, e.arms, scope, inLambda)
    ensures Counted(was, now, e, scope, inLambda)
  {
    RegisteredArms(e.arms);
    forall id <- now ensures Grown(At(was, id), now[id], inLambda, Uses(id, e, scope), LamUses(id, e, scope)) {
      if id !in mid { Unused(id, e.scrutinee, scope); }
    }
  }

  /** The table after the binders of a pattern have been entered. */
  ghost predicate Entered(was: Table, now: Table, pat: Pat, inLambda: bool) {
    && now.Keys == was.Keys + (if inLambda then {} else Ids(PatDecls(pat)))
    && forall id <- now :: now[id] == if !inLambda && id in Ids(PatDecls(pat)) then Use(0, 0) else was[id]
  }

  lemma LetCounts(was: Table, t1: Table, t2: Table, now: Table, e: Expr, scope: seq<Decl>, inLambda: bool)
    requires e.Let? && Apart(e) && Coming(Binders(e), was, scope)
    requires Counted(was, t1, e.rhs, scope, inLambda) && Entered(t1, t2, e.pat, inLambda)
    requires Counted(t2, now, e.body, scope + PatDecls(e.pat), inLambda)
    ensures Counted(was, now, e, scope, inLambda)
  {
    RegisteredBinders(e.rhs);
    RegisteredBinders(e.body);
    EnteredApart(was, t1, t2, e.pat, inLambda, if inLambda then {} else Registered(e.rhs));
    forall id <- now ensures Grown(At(was, id), now[id], inLambda, Uses(id, e, scope), LamUses(id, e, scope)) {
      if id !in t1 { Unused(id, e.rhs, scope); }
      assert At(t2, id) == At(t1, id);
    }
  }

  /** Entering new binders changes no count. */
  lemma EnteredApart(was: Table, t1: Table, t2: Table, pat: Pat, inLambda: bool, registered: set<Id>)
    requires Entered(t1, t2, pat, inLambda) && t1.Keys == was.Keys + registered
    requires Ids(PatDecls(pat)) !! was.Keys && Ids(PatDecls(pat)) !! registered
    ensures forall id :: At(t2, id) == At(t1, id)
  {
  }

  lemma ArgsCounts(was: Table, mid: Table, now: Table, es: Args, scope: seq<Decl>, inLambda: bool)
    requires es.Arg? && ApartArgs(es) && Coming(ArgsBinders(es), was, scope)
    requires Counted(was, mid, es.head, scope, inLambda) && CountedArgs(mid, now, es.rest, scope, inLambda)
    ensures CountedArgs(was, now, es, scope, inLambda)
  {
    RegisteredArgs(es.rest);
    forall id <- now ensures Grown(At(was, id), now[id], inLambda, ArgsUses(id, es, scope), ArgsLamUses(id, es, scope)) {
      if id !in mid { Unused(id, es.head, scope); }
    }
  }

  ghost predicate CountedGuard(was: Table, now: Table, g: Guard, scope: seq<Decl>, inLambda: bool) {
    if g.NoGuard? then now == was else Counted(was, now, g.cond, scope, inLambda)
  }

  function GuardLamUses(id: Id, g: Guard, scope: seq<Decl>): nat {
    if g.NoGuard? then 0 else LamUses(id, g.cond, scope)
  }

  lemma GuardCounts(t1: Table, t2: Table, arms: Arms, scope: seq<Decl>, inLambda: bool, id: Id)
    requires arms.Arm? && ApartArms(arms) && Coming(ArmsBinders(arms), map[], scope)
    requires CountedGuard(t1, t2, arms.guard, scope + PatDecls(arms.pat), inLambda)
    requires id in t2 || id in Binders(arms.body) || id in ArmsBinders(arms.rest)
    ensures var inner := scope + PatDecls(arms.pat);
      Grown(At(t1, id), At(t2, id), inLambda, GuardUses(id, arms.guard, inner), GuardLamUses(id, arms.guard, inner))
  {
    if arms.guard.When? && id !in t2 {
      IdsAppend(scope, PatDecls(arms.pat));
      Unused(id, arms.guard.cond, scope + PatDecls(arms.pat));
    }
  }

  lemma BodyCounts(t2: Table, t3: Table, arms: Arms, scope: seq<Decl>, inLambda: bool, id: Id)
    requires arms.Arm? && ApartArms(arms) && Coming(ArmsBinders(arms), map[], scope)
    requires Counted(t2, t3, arms.body, scope + PatDecls(arms.pat), inLambda)
    requires id in t3 || id in ArmsBinders(arms.rest)
    ensures var inner := scope + PatDecls(arms.pat);
      Grown(At(t2, id), At(t3, id), inLambda, Uses(id, arms.body, inner), LamUses(id, arms.body, inner))
  {
    if id !in t3 {
      IdsAppend(scope, PatDecls(arms.pat));
      Unused(id, arms.body, scope + PatDecls(arms.pat));
    }
  }

  lemma ArmKeys(was: Table, t1: Table, t2: Table, t3: Table, now: Table, arms: Arms, scope: seq<Decl>, inLambda: bool)
    requires arms.Arm?
    requires Entered(was, t1, arms.pat, inLambda) && CountedGuard(t1, t2, arms.guard, scope + PatDecls(arms.pat), inLambda)
    requires Counted(t2, t3, arms.body, scope + PatDecls(arms.pat), inLambda) && CountedArms(t3, now, arms.rest, scope, inLambda)
    ensures now.Keys == was.Keys + (if inLambda then {} else ArmsRegistered(arms))
    ensures t3.Keys <= t2.Keys + Registered(arms.body) && now.Keys <= t3.Keys + ArmsRegistered(arms.rest)
  {
  }

  lemma ArmCounts(was: Table, t1: Table, t2: Table, t3: Table, now: Table, arms: Arms, scope: seq<Decl>, inLambda: bool)
    requires arms.Arm? && ApartArms(arms) && Coming(ArmsBinders(arms), was, scope)
    requires Entered(was, t1, arms.pat, inLambda) && CountedGuard(t1, t2, arms.guard, scope + PatDecls(arms.pat), inLambda)
    requires Counted(t2, t3, arms.body, scope + PatDecls(arms.pat), inLambda) && CountedArms(t3, now, arms.rest, scope, inLambda)
    ensures CountedArms(was, now, arms, scope, inLambda)
  {
    ArmKeys(was, t1, t2, t3, now, arms, scope, inLambda);
    EnteredApart(was, was, t1, arms.pat, inLambda, {});
    RegisteredBinders(arms.body);
    RegisteredArms(arms.rest);
    forall id <- now ensures Grown(At(was, id), now[id], inLambda, ArmsUses(id, arms, scope), ArmsLamUses(id, arms, scope)) {
      assert At(t1, id) == At(was, id);
      GuardCounts(t1, t2, arms, scope, inLambda, id);
      BodyCounts(t2, t3, arms, scope, inLambda, id);
    }
  }

  // ---------- the walk ----------

  class UseCounter {
    /** The scope stack and its marks. */
    var locals: seq<Decl>
    var marks: seq<nat>
    var uses: Table

    constructor ()
      ensures locals == [] && marks == [] && uses == map[]
    {
      locals, marks, uses := [], [], map[];
    }

    method PushMark()
      modifies this`marks
      ensures marks == old(marks) + [|locals|]
    {
      marks := marks + [|locals|];
    }

    method PopMark()
      requires marks != [] && marks[|marks| - 1] <= |locals|
      modifies this`marks, this`locals
      ensures marks == old(marks)[..|old(marks)| - 1] && locals == old(locals)[..old(marks)[|old(marks)| - 1]]
    {
      locals := locals[..marks[|marks| - 1]];
      marks := marks[..|marks| - 1];
    }

    /** The innermost declaration of the name, if there is one. */
    method Resolve(x: Name) returns (id: Id)
      ensures var k := Innermost(locals, x); id == if k < 0 then NoId else locals[k].id
    {
      var i := |locals|;
      while i > 0
        invariant 0 <= i <= |locals| && forall j :: i <= j < |locals| ==> locals[j].name != x
      {
        i := i - 1;
        if locals[i].name == x { return locals[i].id; }
      }
      id := NoId;
    }

    method CountIdent(x: Name, inLambda: bool)
      requires NoId !in uses
      modifies this`uses
      ensures uses.Keys == old(uses).Keys
      ensures forall id <- uses :: Grown(old(uses)[id], uses[id], inLambda, Hit(id, x, locals), 0)
    {
      var id := Resolve(x);
      if id in uses {
        var u := uses[id];
        uses := uses[id := Use(u.total + 1, u.lambda + if inLambda then 1 else 0)];
      }
    }

    /** The binders of a pattern come into scope, and outside a lambda into the table. */
    method AddPattern(pat: Pat, inLambda: bool)
      modifies this`uses, this`locals
      ensures locals == old(locals) + PatDecls(pat)
      ensures uses.Keys == old(uses).Keys + if inLambda then {} else Ids(PatDecls(pat))
      ensures forall id <- uses :: uses[id] == if !inLambda && id in Ids(PatDecls(pat)) then Use(0, 0) else old(uses)[id]
      decreases pat
    {
      match pat
      case Bind(d) =>
        if !inLambda { uses := uses[d.id := Use(0, 0)]; }
        locals := locals + [d];
        assert Ids([d]) == {d.id} by { assert [d][0] == d; }
      case Con(_, args) => AddPatterns(args, inLambda);
      case _ =>
    }

    method AddPatterns(pats: seq<Pat>, inLambda: bool)
      modifies this`uses, this`locals
      ensures locals == old(locals) + PatsDecls(pats)
      ensures uses.Keys == old(uses).Keys + if inLambda then {} else Ids(PatsDecls(pats))
      ensures forall id <- uses :: uses[id] == if !inLambda && id in Ids(PatsDecls(pats)) then Use(0, 0) else old(uses)[id]
      decreases pats
    {
      if pats != [] {
        IdsAppend(PatDecls(pats[0]), PatsDecls(pats[1..]));
        AddPattern(pats[0], inLambda);
        AddPatterns(pats[1..], inLambda);
      }
    }

    method Count(e: Expr, inLambda: bool)
      requires Apart(e) && Coming(Binders(e), uses, locals)
      modifies this
      ensures locals == old(locals) && marks == old(marks)
      ensures Counted(old(uses), uses, e, locals, inLambda)
      decreases e, 1
    {
      match e
      case Lit(_) =>
      case Var(x) => CountIdent(x, inLambda);
      case Prim(_, args) => CountArgs(args, inLambda);
      case Call(f, args, _) => CountCall(e, inLambda);
      case If(_, _, _) => CountIf(e, inLambda);
      case Match(s, arms) => CountMatch(e, inLambda);
      case Let(_, _, _) => CountLet(e, inLambda);
      case Then(_, _) => CountThen(e, inLambda);
      case Lambda(_, _) => CountLambda(e, inLambda);
      case Block(_) => CountBlock(e, inLambda);
    }

    method CountArgs(es: Args, inLambda: bool)
      requires ApartArgs(es) && Coming(ArgsBinders(es), uses, locals)
      modifies this
      ensures locals == old(locals) && marks == old(marks)
      ensures CountedArgs(old(uses), uses, es, locals, inLambda)
      decreases es, 1
    {
      if es.Arg? {
        ghost var was := uses;
        Count(es.head, inLambda);
        ghost var mid := uses;
        RegisteredBinders(es.head);
        Goes(ArgsBinders(es), was, locals, Binders(es.head), ArgsBinders(es.rest), mid, if inLambda then {} else Registered(es.head));
        CountArgs(es.rest, inLambda);
        ArgsCounts(was, mid, uses, es, locals, inLambda);
      }
    }

    method CountCall(e: Expr, inLambda: bool)
      requires e.Call? && Apart(e) && Coming(Binders(e), uses, locals)
      modifies this
      ensures locals == old(locals) && marks == old(marks)
      ensures Counted(old(uses), uses, e, locals, inLambda)
      decreases e, 0
    {
      CountIdent(e.callee, inLambda);
      CountArgs(e.args, inLambda);
      RegisteredArgs(e.args);
      forall id <- uses
        ensures Grown(At(old(uses), id), uses[id], inLambda, Uses(id, e, locals), LamUses(id, e, locals))
      {
        if id !in old(uses) { Unused(id, Var(e.callee), locals); }
      }
    }

    method CountIf(e: Expr, inLambda: bool)
      requires e.If? && Apart(e) && Coming(Binders(e), uses, locals)
      modifies this
      ensures locals == old(locals) && marks == old(marks)
      ensures Counted(old(uses), uses, e, locals, inLambda)
      decreases e, 0
    {
      ghost var was := uses;
      RegisteredBinders(e.cond);
      RegisteredBinders(e.yes);
      Count(e.cond, inLambda);
      ghost var t1 := uses;
      Count(e.yes, inLambda);
      ghost var t2 := uses;
      Count(e.no, inLambda);
      IfCounts(was, t1, t2, uses, e, locals, inLambda);
    }

    method CountThen(e: Expr, inLambda: bool)
      requires e.Then? && Apart(e) && Coming(Binders(e), uses, locals)
      modifies this
      ensures locals == old(locals) && marks == old(marks)
      ensures Counted(old(uses), uses, e, locals, inLambda)
      decreases e, 0
    {
      ghost var was := uses;
      RegisteredBinders(e.first);
      Count(e.first, inLambda);
      ghost var mid := uses;
      Count(e.body, inLambda);
      ThenCounts(was, mid, uses, e, locals, inLambda);
    }

    method CountBlock(e: Expr, inLambda: bool)
      requires e.Block? && Apart(e) && Coming(Binders(e), uses, locals)
      modifies this
      ensures locals == old(locals) && marks == old(marks)
      ensures Counted(old(uses), uses, e, locals, inLambda)
      decreases e, 0
    {
      PushMark();
      Count(e.body, inLambda);
      PopMark();
      forall id <- uses ensures Grown(At(old(uses), id), uses[id], inLambda, Uses(id, e, locals), LamUses(id, e, locals)) {
        assert Uses(id, e, locals) == Uses(id, e.body, locals) && LamUses(id, e, locals) == LamUses(id, e.body, locals);
      }
    }

    method CountMatch(e: Expr, inLambda: bool)
      requires e.Match? && Apart(e) && Coming(Binders(e), uses, locals)
      modifies this
      ensures locals == old(locals) && marks == old(marks)
      ensures Counted(old(uses), uses, e, locals, inLambda)
      decreases e, 0
    {
      ghost var was := uses;
      RegisteredBinders(e.scrutinee);
      Count(e.scrutinee, inLambda);
      ghost var mid := uses;
      CountArms(e.arms, inLambda);
      MatchCounts(was, mid, uses, e, locals, inLambda);
    }

    /** The right-hand side sees the outer scope; then the pattern's binders come into scope. */
    method CountLet(e: Expr, inLambda: bool)
      requires e.Let? && Apart(e) && Coming(Binders(e), uses, locals)
      modifies this
      ensures locals == old(locals) && marks == old(marks)
      ensures Counted(old(uses), uses, e, locals, inLambda)
      decreases e, 0
    {
      ghost var was, scope := uses, locals;
      RegisteredBinders(e.rhs);
      IdsAppend(locals, PatDecls(e.pat));
      Count(e.rhs, inLambda);
      ghost var t1 := uses;
      PushMark();
      AddPattern(e.pat, inLambda);
      ghost var t2 := uses;
      Count(e.body, inLambda);
      PopMark();
      LetCounts(was, t1, t2, uses, e, scope, inLambda);
    }

    method CountLambda(e: Expr, inLambda: bool)
      requires e.Lambda? && Apart(e) && Coming(Binders(e), uses, locals)
      modifies this
      ensures locals == old(locals) && marks == old(marks)
      ensures Counted(old(uses), uses, e, locals, inLambda)
      decreases e, 0
    {
      IdsAppend(locals, Shadowed(e.params));
      PushMark();
      locals := locals + Shadowed(e.params);
      Count(e.body, true);
      PopMark();
    }

    method CountArms(arms: Arms, inLambda: bool)
      requires ApartArms(arms) && Coming(ArmsBinders(arms), uses, locals)
      modifies this
      ensures locals == old(locals) && marks == old(marks)
      ensures CountedArms(old(uses), uses, arms, locals, inLambda)
      decreases arms, 1
    {
      if arms.Arm? {
        ghost var was, scope := uses, locals;
        IdsAppend(locals, PatDecls(arms.pat));
        RegisteredBinders(arms.body);
        PushMark();
        AddPattern(arms.pat, inLambda);
        ghost var t1 := uses;
        if arms.guard.When? {
          RegisteredBinders(arms.guard.cond);
          Count(arms.guard.cond, inLambda);
        }
        ghost var t2 := uses;
        Count(arms.body, inLambda);
        ghost var t3 := uses;
        PopMark();
        CountArms(arms.rest, inLambda);
        ArmCounts(was, t1, t2, t3, uses, arms, scope, inLambda);
      }
    }

    /** The counts for a whole function: they say which reads are bare. */
    method CountFn(fn: Fn)
      requires locals == [] && Apart(fn.body) && Ids(fn.params) !! Binders(fn.body)
      requires NoId !in Ids(fn.params) && NoId !in Binders(fn.body)
      modifies this
      ensures locals == old(locals) && marks == old(marks)
      ensures forall id :: id in uses && uses[id] == Use(1, 0) <==> id in Bare(fn)
    {
      PushMark();
      uses := map[];
      var i := 0;
      while i < |fn.params|
        invariant i <= |fn.params| && locals == fn.params[..i] && marks == old(marks) + [0]
        invariant uses.Keys == Ids(fn.params[..i]) && forall id <- uses :: uses[id] == Use(0, 0)
      {
        IdsAppend(fn.params[..i], [fn.params[i]]);
        assert fn.params[..i + 1] == fn.params[..i] + [fn.params[i]] && [fn.params[i]][0] == fn.params[i];
        locals := locals + [fn.params[i]];
        uses := uses[fn.params[i].id := Use(0, 0)];
        i := i + 1;
      }
      assert fn.params[..i] == fn.params;
      Count(fn.body, false);
      PopMark();
    }
  }

  // ---------- marking ----------

  class Marker {
    /** The names bound between the entry of the function and here. */
    var shadows: seq<Name>

    constructor ()
      ensures shadows == []
    {
      shadows := [];
    }

    method Has(x: Name) returns (found: bool)
      ensures found <==> x in shadows
    {
      var i := 0;
      while i < |shadows|
        invariant i <= |shadows| && x !in shadows[..i]
      {
        if shadows[i] == x { return true; }
        i := i + 1;
      }
      assert shadows[..i] == shadows;
      found := false;
    }

    method CollectPattern(pat: Pat)
      modifies this
      ensures shadows == old(shadows) + Names(PatDecls(pat))
      decreases pat
    {
      match pat
      case Bind(d) => shadows := shadows + [d.name];
      case Con(_, args) =>
        var i := 0;
        while i < |args|
          invariant i <= |args| && shadows == old(shadows) + Names(PatsDecls(args[..i]))
        {
          PatsAppend(args[..i], args[i]);
          assert args[..i + 1] == args[..i] + [args[i]];
          CollectPattern(args[i]);
          i := i + 1;
        }
        assert args[..i] == args;
      case _ =>
    }

    method IsSelf(g: Name, args: Args, f: Name, arity: nat) returns (self: bool)
      ensures self <==> IsSelfCall(shadows, g, args, f, arity)
    {
      if g != f { return false; }
      var shadowed := Has(f);
      if shadowed { return false; }
      self := Length(args) == arity;
    }

    method WalkTail(e: Expr, f: Name, arity: nat) returns (hit: bool)
      modifies this
      ensures shadows == old(shadows) && hit == Walk(shadows, e, f, arity)
      decreases e
    {
      match e
      case Call(g, args, _) => hit := IsSelf(g, args, f, arity);
      case If(_, t, u) =>
        hit := WalkTail(t, f, arity);
        if !hit { hit := WalkTail(u, f, arity); }
      case Match(_, arms) => hit := WalkTailArms(arms, f, arity);
      case Let(pat, _, b) =>
        var mark := |shadows|;
        CollectPattern(pat);
        hit := WalkTail(b, f, arity);
        shadows := shadows[..mark];
      case Then(_, b) => hit := WalkTail(b, f, arity);
      case Block(b) => hit := WalkTail(b, f, arity);
      case _ => hit := false;
    }

    method WalkTailArms(arms: Arms, f: Name, arity: nat) returns (hit: bool)
      modifies this
      ensures shadows == old(shadows) && hit == WalkArms(shadows, arms, f, arity)
      decreases arms
    {
      var rest := arms;
      while rest.Arm?
        invariant shadows == old(shadows) && WalkArms(shadows, arms, f, arity) == WalkArms(shadows, rest, f, arity)
        invariant rest == arms || rest < arms
        decreases rest
      {
        var mark := |shadows|;
        CollectPattern(rest.pat);
        hit := WalkTail(rest.body, f, arity);
        shadows := shadows[..mark];
        if hit { return; }
        rest := rest.rest;
      }
      hit := false;
    }

    method MarkTail(e: Expr, f: Name, arity: nat) returns (marked: Expr)
      modifies this
      ensures shadows == old(shadows) && marked == Mark(shadows, e, f, arity)
      decreases e
    {
      match e
      case Call(g, args, tail) =>
        var self := IsSelf(g, args, f, arity);
        marked := Call(g, args, tail || self);
      case If(c, t, u) =>
        var t' := MarkTail(t, f, arity);
        var u' := MarkTail(u, f, arity);
        marked := If(c, t', u');
      case Match(s, arms) =>
        var arms' := MarkTailArms(arms, f, arity);
        marked := Match(s, arms');
      case Let(pat, r, b) =>
        var mark := |shadows|;
        CollectPattern(pat);
        var b' := MarkTail(b, f, arity);
        shadows := shadows[..mark];
        marked := Let(pat, r, b');
      case Then(a, b) =>
        var b' := MarkTail(b, f, arity);
        marked := Then(a, b');
      case Block(b) =>
        var b' := MarkTail(b, f, arity);
        marked := Block(b');
      case _ => marked := e;
    }

    method MarkTailArms(arms: Arms, f: Name, arity: nat) returns (marked: Arms)
      modifies this
      ensures shadows == old(shadows) && marked == MarkArms(shadows, arms, f, arity)
      decreases arms
    {
      if arms.NoArms? { return arms; }
      var mark := |shadows|;
      CollectPattern(arms.pat);
      var b := MarkTail(arms.body, f, arity);
      shadows := shadows[..mark];
      var rest := MarkTailArms(arms.rest, f, arity);
      marked := Arm(arms.pat, arms.guard, b, rest);
    }
  }

  lemma {:induction false} PatsAppend(ps: seq<Pat>, p: Pat)
    ensures PatsDecls(ps + [p]) == PatsDecls(ps) + PatDecls(p)
  {
    if ps != [] {
      assert (ps + [p])[1..] == ps[1..] + [p];
      PatsAppend(ps[1..], p);
    } else {
      assert PatsDecls([p]) == PatDecls(p) + PatsDecls([p][1..]);
    }
  }
}
