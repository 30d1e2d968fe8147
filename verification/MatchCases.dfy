/** The matches that the generator makes, and what each kind promises. */
module MatchCases {
  import opened MatchGen
  import opened MatchRun
  import opened MatchDraw

  /** An arm that may be drawn for `t`. At a type with structure the pattern shows some of it. */
  ghost predicate MayDraw(t: Ty, a: Arm) {
    ArmOk(t, a) && if IsScalar(t) then LeafDraw(t, a.pat) else !CatchAll(a.pat)
  }

  ghost predicate AllDrawn(t: Ty, drawn: seq<Arm>) {
    forall i :: 0 <= i < |drawn| ==> MayDraw(t, drawn[i])
  }

  method DrawArm(t: Ty, weight: int) returns (a: Arm)
    ensures MayDraw(t, a) && a.weight == weight
  {
    var names := new Drawn();
    var p;
    if IsScalar(t) {
      p := LeafPat(t, names);
    } else {
      p := StructuredPat(t, 0, names);
    }
    var bs := Binders(t, p);
    var guarded: bool := *;
    if bs == [] || !guarded {
      a := Arm(p, NoGuard, weight);
    } else {
      var i :| 0 <= i < |bs|;
      var k: int :| k >= 0;
      a := Arm(p, Above(bs[i].0, bs[i].1, k), weight);
    }
  }

  /** Which drawn arms are kept: all of them, or those that leave a value to fall through. */
  datatype Keep = All | Missing(v: Val)

  predicate Keeps(keep: Keep, a: Arm) {
    keep.Missing? && Plain(a) ==> !Matches(a.pat, keep.v)
  }

  /** The arms that are left of those drawn: each is kept unless it is redundant or unwanted. */
  function KeptArms(keep: Keep, drawn: seq<Arm>): seq<Arm> {
    if drawn == [] then [] else
      var kept, a := KeptArms(keep, drawn[..|drawn| - 1]), drawn[|drawn| - 1];
      if Adds(kept, a) && Keeps(keep, a) then kept + [a] else kept
  }

  lemma DrawnMore(keep: Keep, drawn: seq<Arm>, a: Arm)
    ensures KeptArms(keep, drawn + [a]) ==
      var kept := KeptArms(keep, drawn);
      if Adds(kept, a) && Keeps(keep, a) then kept + [a] else kept
  {
    assert (drawn + [a])[..|drawn|] == drawn;
  }

  /** What is left of `n` random arms. */
  method RandomArms(t: Ty, n: nat, keep: Keep) returns (arms: seq<Arm>, seen: set<Head>, ghost drawn: seq<Arm>)
    ensures Growing(t, arms, seen) && |drawn| == n && AllDrawn(t, drawn) && arms == KeptArms(keep, drawn)
  {
    arms, seen, drawn := [], {}, [];
    var i := 0;
    while i < n
      invariant i <= n && Growing(t, arms, seen) && |drawn| == i && AllDrawn(t, drawn) && arms == KeptArms(keep, drawn)
    {
      var a := DrawArm(t, 1000 * (|arms| + 1));
      DrawnMore(keep, drawn, a);
      drawn := drawn + [a];
      arms, seen := Consider(t, arms, seen, a, keep);
      i := i + 1;
    }
  }

  method Consider(t: Ty, start: seq<Arm>, heads: set<Head>, a: Arm, keep: Keep) returns (arms: seq<Arm>, seen: set<Head>)
    requires Growing(t, start, heads) && ArmOk(t, a)
    ensures Growing(t, arms, seen) && arms == if Adds(start, a) && Keeps(keep, a) then start + [a] else start
  {
    arms, seen := start, heads;
    var head := ArmHead(a.pat);
    var kept := true;
    if keep.Missing? && Plain(a) {
      var ok, _ := MatchPat(a.pat, keep.v, map[]);
      kept := !ok;
    }
    if !((Plain(a) && head in seen) || Star in seen || !kept) {
      Append(arms, a);
      arms := arms + [a];
      if Plain(a) && head != NoHead { seen := seen + {head}; }
    }
  }

  lemma {:induction false} KeptWereDrawn(keep: Keep, drawn: seq<Arm>, i: nat)
    requires i < |KeptArms(keep, drawn)|
    ensures KeptArms(keep, drawn)[i] in drawn && Keeps(keep, KeptArms(keep, drawn)[i])
  {
    var kept := KeptArms(keep, drawn[..|drawn| - 1]);
    if i < |kept| { KeptWereDrawn(keep, drawn[..|drawn| - 1], i); }
  }

  /** An unguarded arm takes each value that an earlier head, or a new arm, covers. */
  ghost predicate Falls(arms: seq<Arm>, v: Val) {
    exists i :: 0 <= i < |arms| && Plain(arms[i]) && Matches(arms[i].pat, v)
  }

  lemma SeenTakes(t: Ty, arms: seq<Arm>, p: Pat, v: Val)
    requires ArmsOk(t, arms) && PatOk(t, p) && HasType(t, v) && Matches(p, v) && ArmHead(p) in Heads(arms)
    ensures Falls(arms, v)
  {
    HeadsHave(arms, ArmHead(p));
    var i :| 0 <= i < |arms| && Plain(arms[i]) && ArmHead(arms[i].pat) == ArmHead(p);
    assert ArmOk(t, arms[i]);
    SameHead(t, arms[i].pat, p, v);
  }

  /** The arms with those for the cover patterns whose head is new. */
  function WithCover(arms: seq<Arm>, ps: seq<Pat>): seq<Arm> {
    if ps == [] then arms else AfterOne(WithCover(arms, ps[..|ps| - 1]), ps[|ps| - 1])
  }

  function AfterOne(arms: seq<Arm>, p: Pat): seq<Arm> {
    if ArmHead(p) == NoHead || ArmHead(p) !in Heads(arms) then arms + [Arm(p, NoGuard, 1000 * (|arms| + 1))] else arms
  }

  /** What the generator makes of what it drew. */
  function Completed(drawn: seq<Arm>, ps: seq<Pat>): seq<Arm> {
    var kept := KeptArms(All, drawn);
    if Star in Heads(kept) then kept else WithCover(kept, ps)
  }

  /** Covers as they may be drawn. */
  ghost predicate MayCover(t: Ty, ps: seq<Pat>) {
    Covers(t, ps) && AllOk(t, ps) && NoStar(ps) && ps != [] && (!t.IntT? && !t.RealT? ==> NoCatchAll(ps))
  }

  predicate Open(arms: seq<Arm>) {
    exists i :: 0 <= i < |arms| && CatchAll(arms[i].pat)
  }

  /** A match is exhaustive, although cover arms whose head was seen are left out, and at a type with
      structure none of its arms is a catch-all. */
  method GenComplete(t: Ty) returns (arms: seq<Arm>, ghost drawn: seq<Arm>, ghost ps: seq<Pat>)
    ensures ArmsOk(t, arms) && Exhaustive(t, arms) && Accepted(arms) && (!IsScalar(t) ==> !Open(arms))
    ensures |drawn| <= 2 && AllDrawn(t, drawn) && MayCover(t, ps) && arms == Completed(drawn, ps)
  {
    var n: nat :| n <= 2;
    var seen;
    arms, seen, drawn := RandomArms(t, n, All);
    var cover := CoverPats(t, 0);
    ps := cover;
    if Star in seen {
      StarTakes(t, arms);
    } else {
      arms := AddCover(t, arms, seen, cover);
    }
    if !IsScalar(t) { NeverOpen(t, drawn, ps); }
  }

  lemma {:induction false} CoverIsClosed(arms: seq<Arm>, ps: seq<Pat>)
    requires !Open(arms) && NoCatchAll(ps)
    ensures !Open(WithCover(arms, ps))
  {
    if ps != [] { CoverIsClosed(arms, ps[..|ps| - 1]); }
  }

  lemma NeverOpen(t: Ty, drawn: seq<Arm>, ps: seq<Pat>)
    requires !IsScalar(t) && AllDrawn(t, drawn) && MayCover(t, ps)
    ensures !Open(Completed(drawn, ps))
  {
    var kept := KeptArms(All, drawn);
    forall i | 0 <= i < |kept| ensures !CatchAll(kept[i].pat) { KeptWereDrawn(All, drawn, i); }
    CoverIsClosed(kept, ps);
  }

  /** No match is made with a catch-all if and only if the type has structure: at a scalar type a
      wildcard may be drawn, and is then the whole match. */
  lemma WithoutCatchAll(t: Ty)
    ensures (forall drawn, ps :: |drawn| <= 2 && AllDrawn(t, drawn) && MayCover(t, ps) ==> !Open(Completed(drawn, ps))) <==> !IsScalar(t)
  {
    if IsScalar(t) {
      WildIsDrawn(t);
      var ps := CoverOfScalar(t);
      assert Open(Completed([Arm(Wild, NoGuard, 1000)], ps));
    } else {
      forall drawn, ps | AllDrawn(t, drawn) && MayCover(t, ps) ensures !Open(Completed(drawn, ps)) { NeverOpen(t, drawn, ps); }
    }
  }

  /** The draw that shows it, for a match on a Bool as well. */
  lemma WildIsDrawn(t: Ty)
    requires IsScalar(t)
    ensures var a := Arm(Wild, NoGuard, 1000);
      AllDrawn(t, [a]) && forall ps :: Completed([a], ps) == [a]
  {
    var a := Arm(Wild, NoGuard, 1000);
    assert [a][..0] == [];
    Append([], a);
    assert [] + [a] == [a];
  }

  lemma CoverOfScalar(t: Ty) returns (ps: seq<Pat>)
    requires IsScalar(t)
    ensures MayCover(t, ps)
  {
    ps := if t.BoolT? then [Lit(B(true)), Lit(B(false))] else [Wild];
    forall v: Val | HasType(t, v) ensures SomeMatches(ps, v) {
      assert Matches(ps[if t.BoolT? && !v.b then 1 else 0], v);
    }
  }

  lemma StarTakes(t: Ty, arms: seq<Arm>)
    requires ArmsOk(t, arms) && Star in Heads(arms)
    ensures Exhaustive(t, arms)
  {
    forall v: Val | HasType(t, v) ensures Falls(arms, v) { SeenTakes(t, arms, Wild, v); }
  }

  /** Some unguarded arm takes what `p` matches. */
  ghost predicate Caught(t: Ty, arms: seq<Arm>, p: Pat) {
    forall v: Val :: HasType(t, v) && Matches(p, v) ==> Falls(arms, v)
  }

  ghost predicate NoneLost(arms: seq<Arm>, arms': seq<Arm>) {
    forall v: Val :: Falls(arms, v) ==> Falls(arms', v)
  }

  lemma StillCaught(t: Ty, arms: seq<Arm>, arms': seq<Arm>, ps: seq<Pat>, n: nat)
    requires n <= |ps| && NoneLost(arms, arms') && forall k :: 0 <= k < n ==> Caught(t, arms, ps[k])
    ensures forall k :: 0 <= k < n ==> Caught(t, arms', ps[k])
  {
    forall k | 0 <= k < n ensures Caught(t, arms', ps[k]) { assert Caught(t, arms, ps[k]); }
  }

  lemma AllCaught(t: Ty, arms: seq<Arm>, ps: seq<Pat>)
    requires Covers(t, ps) && forall k :: 0 <= k < |ps| ==> Caught(t, arms, ps[k])
    ensures Exhaustive(t, arms)
  {
    forall v: Val | HasType(t, v) ensures Falls(arms, v) {
      assert SomeMatches(ps, v);
      var k :| 0 <= k < |ps| && Matches(ps[k], v);
      assert Caught(t, arms, ps[k]);
    }
  }

  /** The cover patterns hold no binders, so any arm of them is well formed. */
  method AddCover(t: Ty, start: seq<Arm>, heads: set<Head>, ps: seq<Pat>) returns (arms: seq<Arm>)
    requires Growing(t, start, heads) && Star !in heads && Covers(t, ps) && AllOk(t, ps) && NoStar(ps)
    ensures ArmsOk(t, arms) && Exhaustive(t, arms) && Accepted(arms) && arms == WithCover(start, ps)
  {
    var seen, n := heads, 0;
    arms := start;
    assert ps[..0] == [];
    while n < |ps|
      invariant n <= |ps| && Covering(t, start, arms, seen, ps, n)
    {
      arms, seen := AddNext(t, start, arms, seen, ps, n);
      n := n + 1;
    }
    assert ps[..n] == ps;
    AllCaught(t, arms, ps);
  }

  /** The first `n` cover patterns are caught. */
  ghost predicate Covering(t: Ty, start: seq<Arm>, arms: seq<Arm>, seen: set<Head>, ps: seq<Pat>, n: nat) {
    && n <= |ps| && Growing(t, arms, seen) && (n < |ps| ==> Star !in seen) && arms == WithCover(start, ps[..n])
    && forall k :: 0 <= k < n ==> Caught(t, arms, ps[k])
  }

  method AddNext(t: Ty, start: seq<Arm>, before: seq<Arm>, heads: set<Head>, ps: seq<Pat>, n: nat) returns (arms: seq<Arm>, seen: set<Head>)
    requires n < |ps| && Covering(t, start, before, heads, ps, n) && AllOk(t, ps) && NoStar(ps)
    ensures Covering(t, start, arms, seen, ps, n + 1)
  {
    arms, seen := AddUnseen(t, before, heads, ps[n]);
    CoverOneMore(start, ps, n);
    StillCaught(t, before, arms, ps, n);
  }

  lemma CoverOneMore(start: seq<Arm>, ps: seq<Pat>, n: nat)
    requires n < |ps|
    ensures WithCover(start, ps[..n + 1]) == AfterOne(WithCover(start, ps[..n]), ps[n])
  {
    assert ps[..n + 1][..n] == ps[..n];
  }

  /** An arm for the pattern, unless its head was seen: then an earlier arm takes all it matches. */
  method AddUnseen(t: Ty, start: seq<Arm>, heads: set<Head>, p: Pat) returns (arms: seq<Arm>, seen: set<Head>)
    requires Growing(t, start, heads) && Star !in heads && PatOk(t, p) && NoBinder(p)
    ensures Growing(t, arms, seen) && (Star in seen ==> ArmHead(p) == Star)
    ensures Caught(t, arms, p) && NoneLost(start, arms)
    ensures arms == AfterOne(start, p)
  {
    var head := ArmHead(p);
    if head == NoHead || head !in heads {
      HeadsHave(start, NoHead);
      arms, seen := AddArm(t, start, heads, p);
    } else {
      arms, seen := start, heads;
      forall v | HasType(t, v) && Matches(p, v) ensures Falls(arms, v) { SeenTakes(t, arms, p, v); }
    }
  }

  method AddArm(t: Ty, start: seq<Arm>, heads: set<Head>, p: Pat) returns (arms: seq<Arm>, seen: set<Head>)
    requires Growing(t, start, heads) && Star !in heads && PatOk(t, p) && NoBinder(p) && ArmHead(p) !in heads
    ensures Growing(t, arms, seen) && (Star in seen ==> ArmHead(p) == Star)
    ensures forall v :: Falls(start, v) || Matches(p, v) ==> Falls(arms, v)
    ensures arms == start + [Arm(p, NoGuard, 1000 * (|start| + 1))]
  {
    var a, head := Arm(p, NoGuard, 1000 * (|start| + 1)), ArmHead(p);
    NothingBound(t, p);
    Append(start, a);
    arms := start + [a];
    seen := if head != NoHead then heads + {head} else heads;
    AllStillFall(start, a);
  }

  lemma AllStillFall(start: seq<Arm>, a: Arm)
    requires Plain(a)
    ensures forall v :: Falls(start, v) || Matches(a.pat, v) ==> Falls(start + [a], v)
  {
    forall v | Falls(start, v) || Matches(a.pat, v) ensures Falls(start + [a], v) { StillFalls(start, a, v); }
  }

  lemma StillFalls(start: seq<Arm>, a: Arm, v: Val)
    requires Falls(start, v) || (Plain(a) && Matches(a.pat, v))
    ensures Falls(start + [a], v)
  {
    var arms := start + [a];
    if i :| 0 <= i < |start| && Plain(start[i]) && Matches(start[i].pat, v) {
      assert arms[i] == start[i];
    } else {
      assert arms[|start|] == a;
    }
  }

  lemma {:induction false} NothingBound(t: Ty, p: Pat)
    requires NoBinder(p)
    ensures Binders(t, p) == []
    decreases p
  {
    match p
    case RecP(_, subs) => if IsRecord(t) { NothingBoundIn(FieldTypes(t), subs); }
    case CtorP(c, subs) => if IsSum(t) { NothingBoundIn(ArgTypes(CtorsOf(t), c), subs); }
    case TupP(a, b) => if t.Tup? { NothingBound(t.fst, a); NothingBound(t.snd, b); }
    case ListP(fixed, _) => if t.ListT? { NothingBoundIn(seq(|fixed|, i => t.of), fixed); }
    case _ =>
  }

  lemma {:induction false} NothingBoundIn(ts: seq<Ty>, ps: seq<Pat>)
    requires forall i :: 0 <= i < |ps| ==> NoBinder(ps[i])
    ensures AllBinders(ts, ps) == []
    decreases ps
  {
    if ps != [] && |ts| == |ps| {
      NothingBoundIn(ts[..|ts| - 1], ps[..|ps| - 1]);
      NothingBound(ts[|ts| - 1], ps[|ps| - 1]);
    }
  }

  /** A match of random arms ends in a catch-all, so it is exhaustive too. */
  method GenMatch(t: Ty) returns (arms: seq<Arm>, ghost drawn: seq<Arm>)
    ensures ArmsOk(t, arms) && Exhaustive(t, arms) && Accepted(arms)
    ensures 2 <= |drawn| <= 5 && AllDrawn(t, drawn) && var kept := KeptArms(All, drawn);
      if Star in Heads(kept) then arms == kept
      else |arms| == |kept| + 1 && arms[..|kept|] == kept && arms[|kept|].pat in {Wild, Bind(Fresh(0))} && Plain(arms[|kept|])
  {
    var n: nat :| 2 <= n <= 5;
    var seen;
    arms, seen, drawn := RandomArms(t, n, All);
    if Star !in seen {
      var named: bool := *;
      arms := AddLast(t, arms, seen, if named then Bind(Fresh(0)) else Wild);
    }
    StarTakes(t, arms);
  }

  method AddLast(t: Ty, start: seq<Arm>, seen: set<Head>, p: Pat) returns (arms: seq<Arm>)
    requires Growing(t, start, seen) && Star !in seen && (p == Wild || p == Bind(Fresh(0)))
    ensures ArmsOk(t, arms) && Accepted(arms) && Star in Heads(arms) && arms == start + [Arm(p, NoGuard, 9000)]
  {
    var last := Arm(p, NoGuard, 9000);
    Append(start, last);
    arms := start + [last];
  }

  /** A match whose unguarded arms all miss one value, which the typer must reject. */
  method GenIncomplete(t: Ty) returns (arms: seq<Arm>, v: Val, ghost drawn: seq<Arm>)
    ensures ArmsOk(t, arms) && arms != [] && HasType(t, v) && !Falls(arms, v)
    ensures 2 <= |drawn| <= 5 && AllDrawn(t, drawn) && (KeptArms(Missing(v), drawn) != [] ==> arms == KeptArms(Missing(v), drawn))
  {
    v := RandVal(t);
    var n: nat :| 2 <= n <= 5;
    var seen;
    arms, seen, drawn := RandomArms(t, n, Missing(v));
    forall i | 0 <= i < |arms| ensures Keeps(Missing(v), arms[i]) { KeptWereDrawn(Missing(v), drawn, i); }
    if arms == [] {
      var x := Fresh(0);
      arms := [Arm(Bind(x), Above(x, t, 0), 1000)];
    }
  }

  ghost predicate Tried(p: Pat, vals: seq<Val>) {
    exists v :: v in vals && Matches(p, v)
  }

  /** The values that a match is tried on: witnesses of each arm, and some others. */
  method TestValues(t: Ty, arms: seq<Arm>) returns (vals: seq<Val>)
    requires ArmsOk(t, arms)
    ensures forall v <- vals :: HasType(t, v)
    ensures forall k :: 0 <= k < |arms| ==> Tried(arms[k].pat, vals)
    ensures forall i, j :: 0 <= i < j < |vals| ==> vals[i] != vals[j]
  {
    vals := [];
    var n := 0;
    while n < |arms|
      invariant n <= |arms| && Distinct(t, vals) && forall k :: 0 <= k < n ==> Tried(arms[k].pat, vals)
    {
      ghost var was := vals;
      assert ArmOk(t, arms[n]);
      vals := AddWitness(t, arms[n].pat, vals);
      vals := AddWitness(t, arms[n].pat, vals);
      forall k | 0 <= k < n ensures Tried(arms[k].pat, vals) { StillTried(arms[k].pat, was, vals); }
      n := n + 1;
    }
    var more := 0;
    ghost var tried := vals;
    while more < 4
      invariant Distinct(t, vals) && More(tried, vals)
    {
      var v := RandVal(t);
      vals := AddNew(t, v, vals);
      more := more + 1;
    }
    forall k | 0 <= k < |arms| ensures Tried(arms[k].pat, vals) { StillTried(arms[k].pat, tried, vals); }
  }

  ghost predicate Distinct(t: Ty, vals: seq<Val>) {
    (forall v <- vals :: HasType(t, v)) && forall i, j :: 0 <= i < j < |vals| ==> vals[i] != vals[j]
  }

  ghost predicate More(was: seq<Val>, vals: seq<Val>) {
    forall v <- was :: v in vals
  }

  lemma StillTried(p: Pat, was: seq<Val>, vals: seq<Val>)
    requires Tried(p, was) && More(was, vals)
    ensures Tried(p, vals)
  {
    var v :| v in was && Matches(p, v);
    assert v in vals;
  }

  method AddNew(t: Ty, v: Val, was: seq<Val>) returns (vals: seq<Val>)
    requires HasType(t, v) && Distinct(t, was)
    ensures Distinct(t, vals) && More(was, vals) && v in vals
  {
    vals := if v in was then was else was + [v];
  }

  method AddWitness(t: Ty, p: Pat, was: seq<Val>) returns (vals: seq<Val>)
    requires PatOk(t, p) && Distinct(t, was)
    ensures Distinct(t, vals) && More(was, vals) && Tried(p, vals)
  {
    var v := Witness(t, p);
    vals := AddNew(t, v, was);
  }
}
