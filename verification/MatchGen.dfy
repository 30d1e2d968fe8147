/** The generator of pattern matches. Its matches without a catch-all are exhaustive whatever the
    random draws are. A draw is a choice that the code leaves open. */
module MatchGen {

  // ---------- types, values and patterns ----------

  type Name = string

  datatype Ty = IntT | BoolT | RealT | Pt | Rw | Col | Sh2 | Sh | Opt(of: Ty) | ListT(of: Ty) | Tup(fst: Ty, snd: Ty)

  datatype Ctor = Ctor(name: Name, args: seq<Ty>)

  predicate IsRecord(t: Ty) { t.Pt? || t.Rw? }

  predicate IsSum(t: Ty) { t.Col? || t.Sh2? || t.Sh? || t.Opt? }

  /** The fields of a record type. */
  function FieldTypes(t: Ty): seq<Ty>
    requires IsRecord(t)
  {
    if t.Pt? then [IntT, IntT] else [IntT, Sh2]
  }

  function FieldNames(t: Ty): seq<Name>
    requires IsRecord(t)
  {
    if t.Pt? then ["x", "y"] else ["k", "s"]
  }

  function CtorsOf(t: Ty): seq<Ctor>
    requires IsSum(t)
  {
    match t
    case Col => [Ctor("Red", []), Ctor("Grn", []), Ctor("Blu", [])]
    case Sh2 => [Ctor("A", []), Ctor("B", [IntT])]
    case Sh => [Ctor("Sq", [IntT]), Ctor("Pr", [IntT, ListT(IntT)]), Ctor("Bx", [Pt]), Ctor("Two", [Col, Sh2]), Ctor("Nul", [])]
    case Opt(u) => [Ctor("None", []), Ctor("Some", [u])]
  }

  /** The argument types of a constructor of `t`. */
  predicate Builds(t: Ty, c: Name, args: seq<Ty>) {
    IsSum(t) && Ctor(c, args) in CtorsOf(t)
  }

  lemma OneCtor(t: Ty, c: Name, ts: seq<Ty>, us: seq<Ty>)
    requires Builds(t, c, ts) && Builds(t, c, us)
    ensures ts == us
  {
  }

  function Rank(t: Ty): nat {
    match t
    case Opt(u) => 1 + Rank(u)
    case ListT(u) => 1 + Rank(u)
    case Tup(a, b) => 1 + Rank(a) + Rank(b)
    case IntT => 0
    case BoolT => 0
    case RealT => 0
    case Pt => 1
    case Col => 1
    case Sh2 => 1
    case Rw => 2
    case Sh => 2
  }

  datatype Val =
    | I(i: int)
    | B(b: bool)
    | R(r: real)
    | Rec(ty: Ty, fields: seq<Val>)
    | Con(con: Name, args: seq<Val>)
    | Pair(fst: Val, snd: Val)
    | Items(items: seq<Val>)

  ghost predicate HasType(t: Ty, v: Val)
    decreases v
  {
    match v
    case I(_) => t.IntT?
    case B(_) => t.BoolT?
    case R(_) => t.RealT?
    case Rec(ty, fs) => t == ty && IsRecord(t) && |fs| == |FieldTypes(t)| && forall i :: 0 <= i < |fs| ==> HasType(FieldTypes(t)[i], fs[i])
    case Con(c, args) => exists ts :: Builds(t, c, ts) && |ts| == |args| && forall i :: 0 <= i < |args| ==> HasType(ts[i], args[i])
    case Pair(a, b) => t.Tup? && HasType(t.fst, a) && HasType(t.snd, b)
    case Items(vs) => t.ListT? && forall i :: 0 <= i < |vs| ==> HasType(t.of, vs[i])
  }

  /** A binder is drawn fresh, or a record field bound to its own name. */
  datatype Var = Fresh(n: nat) | OfField(name: Name)

  datatype Rest = Exact | AnyRest | Bound(x: Var)

  datatype Pat =
    | Wild
    | Bind(x: Var)
    | Lit(v: Val)
    | Range(lo: int, hi: int)
    | As(x: Var, of: Pat)
    | RecP(ty: Ty, subs: seq<Pat>)
    | CtorP(con: Name, subs: seq<Pat>)
    | TupP(fst: Pat, snd: Pat)
    | ListP(fixed: seq<Pat>, rest: Rest)

  ghost predicate PatOk(t: Ty, p: Pat)
    decreases p
  {
    match p
    case Lit(v) => (v.I? || v.B? || v.R?) && HasType(t, v)
    case Range(lo, hi) => t.IntT? && lo <= hi
    case As(_, q) => PatOk(t, q)
    case RecP(ty, subs) => t == ty && IsRecord(t) && |subs| == |FieldTypes(t)| && forall i :: 0 <= i < |subs| ==> PatOk(FieldTypes(t)[i], subs[i])
    case CtorP(c, subs) => exists ts :: Builds(t, c, ts) && |ts| == |subs| && forall i :: 0 <= i < |subs| ==> PatOk(ts[i], subs[i])
    case TupP(a, b) => t.Tup? && PatOk(t.fst, a) && PatOk(t.snd, b)
    case ListP(fixed, _) => t.ListT? && forall i :: 0 <= i < |fixed| ==> PatOk(t.of, fixed[i])
    case _ => true
  }

  predicate Matches(p: Pat, v: Val)
    decreases p
  {
    match p
    case Wild => true
    case Bind(_) => true
    case Lit(l) => v == l
    case Range(lo, hi) => v.I? && lo <= v.i <= hi
    case As(_, q) => Matches(q, v)
    case RecP(_, subs) => v.Rec? && forall i :: 0 <= i < |subs| && i < |v.fields| ==> Matches(subs[i], v.fields[i])
    case CtorP(c, subs) => v.Con? && v.con == c && forall i :: 0 <= i < |subs| && i < |v.args| ==> Matches(subs[i], v.args[i])
    case TupP(a, b) => v.Pair? && Matches(a, v.fst) && Matches(b, v.snd)
    case ListP(fixed, rest) =>
      && v.Items? && |fixed| <= |v.items| && (rest.Exact? ==> |v.items| == |fixed|)
      && forall i :: 0 <= i < |fixed| ==> Matches(fixed[i], v.items[i])
  }

  // ---------- the redundancy rule ----------

  predicate CatchAll(p: Pat) {
    match p
    case As(_, q) => CatchAll(q)
    case Wild => true
    case Bind(_) => true
    case _ => false
  }

  datatype Head = NoHead | Star | OfCtor(con: Name) | OfPair | OfLit(v: Val)

  function ArmHead(p: Pat): Head {
    match p
    case As(_, q) => ArmHead(q)
    case Wild => Star
    case Bind(_) => Star
    case CtorP(c, subs) => if forall i :: 0 <= i < |subs| ==> CatchAll(subs[i]) then OfCtor(c) else NoHead
    case TupP(a, b) => if CatchAll(a) && CatchAll(b) then OfPair else NoHead
    case Lit(v) => if v.R? then NoHead else OfLit(v)
    case _ => NoHead
  }

  lemma {:induction false} CatchAllMatches(p: Pat, v: Val)
    requires CatchAll(p)
    ensures Matches(p, v)
  {
    if p.As? { CatchAllMatches(p.of, v); }
  }

  /** The values that an arm with this head takes. */
  predicate HeadTakes(h: Head, v: Val) {
    match h
    case OfCtor(c) => v.Con? && v.con == c
    case OfLit(l) => v == l
    case _ => true
  }

  /** What an arm with a head matches depends on the head alone. */
  lemma {:induction false} HeadMatches(t: Ty, p: Pat, v: Val)
    requires HasType(t, v) && PatOk(t, p) && ArmHead(p) != NoHead
    ensures Matches(p, v) <==> HeadTakes(ArmHead(p), v)
  {
    match p
    case As(_, q) => HeadMatches(t, q, v);
    case CtorP(c, subs) => OpenCtorMatches(c, subs, v);
    case TupP(a, b) =>
      if CatchAll(a) && CatchAll(b) { CatchAllMatches(a, v.fst); CatchAllMatches(b, v.snd); }
    case _ =>
  }

  lemma OpenCtorMatches(c: Name, subs: seq<Pat>, v: Val)
    ensures (forall i :: 0 <= i < |subs| ==> CatchAll(subs[i])) ==> (Matches(CtorP(c, subs), v) <==> v.Con? && v.con == c)
  {
    if v.Con? && forall i :: 0 <= i < |subs| ==> CatchAll(subs[i]) {
      forall i | 0 <= i < |subs| && i < |v.args| ensures Matches(subs[i], v.args[i]) { CatchAllMatches(subs[i], v.args[i]); }
    }
  }

  /** So an arm that repeats a head matches nothing new. */
  lemma SameHead(t: Ty, p: Pat, q: Pat, v: Val)
    requires PatOk(t, p) && PatOk(t, q) && HasType(t, v) && ArmHead(p) == ArmHead(q) != NoHead
    ensures Matches(p, v) <==> Matches(q, v)
  {
    HeadMatches(t, p, v);
    HeadMatches(t, q, v);
  }

  // ---------- patterns that cover a type ----------

  ghost predicate Covers(t: Ty, ps: seq<Pat>) {
    forall v: Val :: HasType(t, v) ==> SomeMatches(ps, v)
  }

  ghost predicate SomeMatches(ps: seq<Pat>, v: Val) {
    exists i :: 0 <= i < |ps| && Matches(ps[i], v)
  }

  predicate NoBinder(p: Pat)
    decreases p
  {
    match p
    case Bind(_) => false
    case As(_, _) => false
    case RecP(_, subs) => forall i :: 0 <= i < |subs| ==> NoBinder(subs[i])
    case CtorP(_, subs) => forall i :: 0 <= i < |subs| ==> NoBinder(subs[i])
    case TupP(a, b) => NoBinder(a) && NoBinder(b)
    case ListP(fixed, rest) => !rest.Bound? && forall i :: 0 <= i < |fixed| ==> NoBinder(fixed[i])
    case _ => true
  }

  ghost predicate AllOk(t: Ty, ps: seq<Pat>) {
    forall i :: 0 <= i < |ps| ==> PatOk(t, ps[i]) && NoBinder(ps[i])
  }

  predicate IsScalar(t: Ty) { t.IntT? || t.BoolT? || t.RealT? }

  predicate NoCatchAll(ps: seq<Pat>) {
    forall i :: 0 <= i < |ps| ==> !CatchAll(ps[i])
  }

  /** Only a lone pattern is a catch-all. */
  predicate NoStar(ps: seq<Pat>) {
    |ps| == 1 || forall i :: 0 <= i < |ps| ==> ArmHead(ps[i]) != Star
  }

  function Wilds(n: nat): (ps: seq<Pat>)
    ensures |ps| == n && forall i :: 0 <= i < n ==> ps[i] == Wild
  {
    seq(n, i => Wild)
  }
  /** Patterns that together match every value of `t`. At the top they need no catch-all, unless the
      type has no finite cover. */
  method CoverPats(t: Ty, depth: nat) returns (ps: seq<Pat>)
    ensures Covers(t, ps) && AllOk(t, ps) && NoStar(ps) && ps != []
    ensures depth < 2 && !t.IntT? && !t.RealT? ==> NoCatchAll(ps)
    decreases 2 - depth, 2
  {
    if t.BoolT? {
      ps := [Lit(B(true)), Lit(B(false))];
      forall v: Val | HasType(t, v) ensures SomeMatches(ps, v) { assert Matches(ps[if v.b then 0 else 1], v); }
    } else if t.IntT? || t.RealT? || depth >= 2 {
      ps := [Wild];
      forall v: Val | HasType(t, v) ensures SomeMatches(ps, v) { assert Matches(ps[0], v); }
    } else if IsRecord(t) {
      var i :| 0 <= i < |FieldTypes(t)|;
      var subs := CoverPats(FieldTypes(t)[i], depth + 1);
      ps := CoverField(t, i, subs);
    } else if IsSum(t) {
      ps := CoverSum(t, depth);
    } else if t.Tup? {
      if * {
        var subs := CoverPats(t.fst, depth + 1);
        ps := CoverFirst(t, subs);
      } else {
        var subs := CoverPats(t.snd, depth + 1);
        ps := CoverSecond(t, subs);
      }
    } else {
      var subs := CoverPats(t.of, depth + 1);
      ps := CoverList(t, subs);
    }
  }

  lemma OneMatches(ps: seq<Pat>, i: nat, v: Val)
    requires i < |ps| && Matches(ps[i], v)
    ensures SomeMatches(ps, v)
  {
  }

  lemma MoreMatch(ps: seq<Pat>, qs: seq<Pat>, v: Val)
    requires SomeMatches(ps, v) || SomeMatches(qs, v)
    ensures SomeMatches(ps + qs, v)
  {
    if i :| 0 <= i < |ps| && Matches(ps[i], v) { OneMatches(ps + qs, i, v); }
    if i :| 0 <= i < |qs| && Matches(qs[i], v) { assert (ps + qs)[|ps| + i] == qs[i]; OneMatches(ps + qs, |ps| + i, v); }
  }

  /** One field of a record is split, the others are left open. */
  method CoverField(t: Ty, i: nat, subs: seq<Pat>) returns (ps: seq<Pat>)
    requires IsRecord(t) && i < |FieldTypes(t)| && Covers(FieldTypes(t)[i], subs) && AllOk(FieldTypes(t)[i], subs) && subs != []
    ensures Covers(t, ps) && AllOk(t, ps) && NoStar(ps) && NoCatchAll(ps) && ps != []
  {
    var n := |FieldTypes(t)|;
    ps := [];
    while |ps| < |subs|
      invariant |ps| <= |subs| && forall k :: 0 <= k < |ps| ==> ps[k] == RecP(t, Wilds(n)[i := subs[k]])
    {
      ps := ps + [RecP(t, Wilds(n)[i := subs[|ps|]])];
    }
    forall k | 0 <= k < |ps| ensures PatOk(t, ps[k]) && NoBinder(ps[k]) {
      assert PatOk(FieldTypes(t)[i], subs[k]) && NoBinder(subs[k]);
      FieldPatOk(t, i, subs[k]);
    }
    forall v: Val | HasType(t, v) ensures SomeMatches(ps, v) { FieldMatches(t, i, subs, ps, v); }
  }

  lemma FieldPatOk(t: Ty, i: nat, p: Pat)
    requires IsRecord(t) && i < |FieldTypes(t)| && PatOk(FieldTypes(t)[i], p) && NoBinder(p)
    ensures PatOk(t, RecP(t, Wilds(|FieldTypes(t)|)[i := p])) && NoBinder(RecP(t, Wilds(|FieldTypes(t)|)[i := p]))
  {
    var subs := Wilds(|FieldTypes(t)|)[i := p];
    forall j | 0 <= j < |subs| ensures PatOk(FieldTypes(t)[j], subs[j]) && NoBinder(subs[j]) { }
  }

  lemma FieldMatches(t: Ty, i: nat, subs: seq<Pat>, ps: seq<Pat>, v: Val)
    requires IsRecord(t) && i < |FieldTypes(t)| && Covers(FieldTypes(t)[i], subs) && HasType(t, v) && |ps| == |subs|
    requires forall k :: 0 <= k < |ps| ==> ps[k] == RecP(t, Wilds(|FieldTypes(t)|)[i := subs[k]])
    ensures SomeMatches(ps, v)
  {
    assert SomeMatches(subs, v.fields[i]);
    var k :| 0 <= k < |subs| && Matches(subs[k], v.fields[i]);
    OneMatches(ps, k, v);
  }

  method CoverFirst(t: Ty, subs: seq<Pat>) returns (ps: seq<Pat>)
    requires t.Tup? && Covers(t.fst, subs) && AllOk(t.fst, subs) && subs != []
    ensures Covers(t, ps) && AllOk(t, ps) && NoStar(ps) && NoCatchAll(ps) && ps != []
  {
    ps := [];
    while |ps| < |subs|
      invariant |ps| <= |subs| && forall k :: 0 <= k < |ps| ==> ps[k] == TupP(subs[k], Wild)
    {
      ps := ps + [TupP(subs[|ps|], Wild)];
    }
    forall k | 0 <= k < |ps| ensures PatOk(t, ps[k]) && NoBinder(ps[k]) {
      assert PatOk(t.fst, subs[k]) && NoBinder(subs[k]);
    }
    forall v: Val | HasType(t, v) ensures SomeMatches(ps, v) {
      assert SomeMatches(subs, v.fst);
      var k :| 0 <= k < |subs| && Matches(subs[k], v.fst);
      OneMatches(ps, k, v);
    }
  }

  method CoverSecond(t: Ty, subs: seq<Pat>) returns (ps: seq<Pat>)
    requires t.Tup? && Covers(t.snd, subs) && AllOk(t.snd, subs) && subs != []
    ensures Covers(t, ps) && AllOk(t, ps) && NoStar(ps) && NoCatchAll(ps) && ps != []
  {
    ps := [];
    while |ps| < |subs|
      invariant |ps| <= |subs| && forall k :: 0 <= k < |ps| ==> ps[k] == TupP(Wild, subs[k])
    {
      ps := ps + [TupP(Wild, subs[|ps|])];
    }
    forall k | 0 <= k < |ps| ensures PatOk(t, ps[k]) && NoBinder(ps[k]) {
      assert PatOk(t.snd, subs[k]) && NoBinder(subs[k]);
    }
    forall v: Val | HasType(t, v) ensures SomeMatches(ps, v) {
      assert SomeMatches(subs, v.snd);
      var k :| 0 <= k < |subs| && Matches(subs[k], v.snd);
      OneMatches(ps, k, v);
    }
  }

  /** The empty list, and a first element of each kind with any rest. */
  method CoverList(t: Ty, subs: seq<Pat>) returns (ps: seq<Pat>)
    requires t.ListT? && Covers(t.of, subs) && AllOk(t.of, subs)
    ensures Covers(t, ps) && AllOk(t, ps) && NoStar(ps) && NoCatchAll(ps) && ps != []
  {
    ps := [ListP([], Exact)];
    while |ps| < |subs| + 1
      invariant 1 <= |ps| <= |subs| + 1 && ps[0] == ListP([], Exact)
      invariant forall k :: 1 <= k < |ps| ==> ps[k] == ListP([subs[k - 1]], AnyRest)
    {
      ps := ps + [ListP([subs[|ps| - 1]], AnyRest)];
    }
    forall k | 0 <= k < |ps| ensures PatOk(t, ps[k]) && NoBinder(ps[k]) {
      if k > 0 { assert PatOk(t.of, subs[k - 1]) && NoBinder(subs[k - 1]); }
    }
    forall v: Val | HasType(t, v) ensures SomeMatches(ps, v) {
      if v.items == [] {
        OneMatches(ps, 0, v);
      } else {
        assert SomeMatches(subs, v.items[0]);
        var k :| 0 <= k < |subs| && Matches(subs[k], v.items[0]);
        assert ps[k + 1] == ListP([subs[k]], AnyRest);
        OneMatches(ps, k + 1, v);
      }
    }
  }

  /** Every value made by this constructor. */
  ghost predicate CoversCtor(t: Ty, c: Ctor, ps: seq<Pat>) {
    forall v: Val :: HasType(t, v) && v.Con? && v.con == c.name ==> SomeMatches(ps, v)
  }

  method CoverSum(t: Ty, depth: nat) returns (ps: seq<Pat>)
    requires IsSum(t) && depth < 2
    ensures Covers(t, ps) && AllOk(t, ps) && NoStar(ps) && NoCatchAll(ps) && ps != []
    decreases 2 - depth, 1
  {
    ps := [];
    var ctors, n := CtorsOf(t), 0;
    while n < |ctors|
      invariant n <= |ctors| && AllOk(t, ps) && (n > 0 ==> ps != [])
      invariant forall i :: 0 <= i < |ps| ==> ps[i].CtorP?
      invariant forall k :: 0 <= k < n ==> CoversCtor(t, ctors[k], ps)
    {
      var more := CoverCtor(t, ctors[n], depth);
      forall k | 0 <= k <= n ensures CoversCtor(t, ctors[k], ps + more) {
        assert if k < n then CoversCtor(t, ctors[k], ps) else CoversCtor(t, ctors[k], more);
        CoversStill(t, ctors[k], ps, more);
      }
      ps := ps + more;
      n := n + 1;
    }
    forall v: Val | HasType(t, v) ensures SomeMatches(ps, v) {
      var ts :| Builds(t, v.con, ts);
      var k :| 0 <= k < |ctors| && ctors[k] == Ctor(v.con, ts);
      assert CoversCtor(t, ctors[k], ps);
    }
  }

  lemma CoversStill(t: Ty, c: Ctor, ps: seq<Pat>, more: seq<Pat>)
    requires CoversCtor(t, c, ps) || CoversCtor(t, c, more)
    ensures CoversCtor(t, c, ps + more)
  {
    forall v: Val | HasType(t, v) && v.Con? && v.con == c.name ensures SomeMatches(ps + more, v) { MoreMatch(ps, more, v); }
  }

  method CoverCtor(t: Ty, c: Ctor, depth: nat) returns (ps: seq<Pat>)
    requires IsSum(t) && c in CtorsOf(t) && depth < 2
    ensures CoversCtor(t, c, ps) && AllOk(t, ps) && ps != [] && forall i :: 0 <= i < |ps| ==> ps[i].CtorP?
    decreases 2 - depth, 0
  {
    assert Builds(t, c.name, c.args);
    var split: bool := *;
    if |c.args| > 0 && split {
      var i :| 0 <= i < |c.args|;
      var subs := CoverPats(c.args[i], depth + 1);
      ps := SplitCtor(t, c, i, subs);
    } else {
      ps := [CtorP(c.name, Wilds(|c.args|))];
      OpenCtor(t, c);
      OpenCtorCovers(t, c, ps);
    }
  }

  /** The constructor with `p` for argument `i`, and the other arguments left open. */
  function SplitAt(c: Ctor, i: nat, p: Pat): Pat
    requires i < |c.args|
  {
    CtorP(c.name, Wilds(|c.args|)[i := p])
  }

  /** One argument is split, the others are left open. */
  method SplitCtor(t: Ty, c: Ctor, i: nat, subs: seq<Pat>) returns (ps: seq<Pat>)
    requires Builds(t, c.name, c.args) && i < |c.args| && Covers(c.args[i], subs) && AllOk(c.args[i], subs) && subs != []
    ensures CoversCtor(t, c, ps) && AllOk(t, ps) && ps != [] && forall i :: 0 <= i < |ps| ==> ps[i].CtorP?
  {
    ps := [];
    while |ps| < |subs|
      invariant |ps| <= |subs| && forall k :: 0 <= k < |ps| ==> ps[k] == SplitAt(c, i, subs[k])
    {
      ps := ps + [SplitAt(c, i, subs[|ps|])];
    }
    CtorPatsOk(t, c, ps, i, subs);
    CtorPatsCover(t, c, ps, i, subs);
  }

  lemma OpenCtorCovers(t: Ty, c: Ctor, ps: seq<Pat>)
    requires ps == [CtorP(c.name, Wilds(|c.args|))]
    ensures CoversCtor(t, c, ps)
  {
    forall v: Val | HasType(t, v) && v.Con? && v.con == c.name ensures SomeMatches(ps, v) {
      OneMatches(ps, 0, v);
    }
  }

  lemma OpenCtor(t: Ty, c: Ctor)
    requires Builds(t, c.name, c.args)
    ensures PatOk(t, CtorP(c.name, Wilds(|c.args|))) && NoBinder(CtorP(c.name, Wilds(|c.args|)))
  {
    var ps := Wilds(|c.args|);
    forall i | 0 <= i < |ps| ensures PatOk(c.args[i], ps[i]) && NoBinder(ps[i]) { }
  }

  lemma CtorPatsOk(t: Ty, c: Ctor, ps: seq<Pat>, i: nat, subs: seq<Pat>)
    requires Builds(t, c.name, c.args) && i < |c.args| && AllOk(c.args[i], subs)
    requires |ps| == |subs| && forall k :: 0 <= k < |ps| ==> ps[k] == SplitAt(c, i, subs[k])
    ensures AllOk(t, ps)
  {
    forall k | 0 <= k < |ps| ensures PatOk(t, ps[k]) && NoBinder(ps[k]) {
      assert PatOk(c.args[i], subs[k]) && NoBinder(subs[k]);
      forall j | 0 <= j < |c.args| ensures PatOk(c.args[j], ps[k].subs[j]) { }
    }
  }

  /** What the pattern of the split argument matches, the constructor pattern matches. */
  lemma SplitMatches(c: Ctor, i: nat, p: Pat, v: Val)
    requires i < |c.args| && v.Con? && v.con == c.name && |v.args| == |c.args| && Matches(p, v.args[i])
    ensures Matches(SplitAt(c, i, p), v)
  {
    var subs := SplitAt(c, i, p).subs;
    forall j | 0 <= j < |subs| ensures Matches(subs[j], v.args[j]) {
      assert subs[j] == if j == i then p else Wild;
    }
  }

  lemma SplitArg(t: Ty, c: Ctor, i: nat, v: Val)
    requires Builds(t, c.name, c.args) && i < |c.args| && HasType(t, v) && v.Con? && v.con == c.name
    ensures |v.args| == |c.args| && HasType(c.args[i], v.args[i])
  {
    var ts :| Builds(t, v.con, ts) && |ts| == |v.args| && forall j :: 0 <= j < |v.args| ==> HasType(ts[j], v.args[j]);
    OneCtor(t, c.name, ts, c.args);
  }

  lemma CtorPatsCover(t: Ty, c: Ctor, ps: seq<Pat>, i: nat, subs: seq<Pat>)
    requires Builds(t, c.name, c.args) && i < |c.args| && Covers(c.args[i], subs)
    requires |ps| == |subs| && forall k :: 0 <= k < |ps| ==> ps[k] == SplitAt(c, i, subs[k])
    ensures CoversCtor(t, c, ps)
  {
    forall v: Val | HasType(t, v) && v.Con? && v.con == c.name ensures SomeMatches(ps, v) {
      SplitArg(t, c, i, v);
      assert SomeMatches(subs, v.args[i]);
      var k :| 0 <= k < |subs| && Matches(subs[k], v.args[i]);
      SplitMatches(c, i, subs[k], v);
    }
  }
}
