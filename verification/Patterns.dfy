/** How stage 0 compiles patterns: a test over access paths into the scrutinee, and bindings that
    read the same paths. */
module Patterns {

  type Name = string

  datatype Value =
    | Scalar(i: int)
    | Nil
    | Cons(head: Value, tail: Value)
    | Variant(con: Name, args: seq<Value>)
    | Record(names: seq<Name>, fields: seq<Value>)

  datatype Pat =
    | Wild
    | Bind(name: Name)
    | Literal(i: int)
    | List(items: seq<Pat>, rest: Rest)
    | Constructor(con: Name, args: seq<Pat>)
    | Fields(names: seq<Name>, pats: seq<Pat>)

  datatype Rest = Closed | Open(name: Name)

  datatype Option<T> = None | Some(value: T)

  // ---------- what a pattern means ----------

  function FieldAt(names: seq<Name>, x: Name): (k: int)
    ensures -1 <= k < |names| && (k >= 0 ==> names[k] == x)
  {
    if names == [] then -1
    else if names[0] == x then 0
    else var k := FieldAt(names[1..], x); if k < 0 then -1 else k + 1
  }

  function Field(v: Value, x: Name): Option<Value> {
    if !v.Record? then None else
      var k := FieldAt(v.names, x);
      if 0 <= k < |v.fields| then Some(v.fields[k]) else None
  }

  predicate Matches(p: Pat, v: Value)
    decreases p
  {
    match p
    case Wild => true
    case Bind(_) => true
    case Literal(i) => v == Scalar(i)
    case List(items, rest) => Prefix(items, v) && (rest.Closed? ==> After(v, |items|) == Nil)
    case Constructor(c, args) => v.Variant? && v.con == c && |v.args| == |args| && forall i :: 0 <= i < |args| ==> Matches(args[i], v.args[i])
    case Fields(names, pats) =>
      v.Record? && forall i :: 0 <= i < |names| && i < |pats| ==> Field(v, names[i]).Some? && Matches(pats[i], Field(v, names[i]).value)
  }

  /** The list starts with elements that match. */
  predicate Prefix(items: seq<Pat>, v: Value)
    decreases items
  {
    items == [] || (v.Cons? && Matches(items[0], v.head) && Prefix(items[1..], v.tail))
  }

  /** What is left of a list after `n` elements. */
  function After(v: Value, n: nat): Value {
    if n == 0 then v else if v.Cons? then After(v.tail, n - 1) else v
  }

  type Env = seq<(Name, Value)>

  function EnvOf(p: Pat, v: Value): Env
    requires Matches(p, v)
    decreases p
  {
    match p
    case Bind(x) => [(x, v)]
    case List(items, rest) => PrefixEnv(items, v) + if rest.Open? then [(rest.name, After(v, |items|))] else []
    case Constructor(_, args) => ArgsEnv(args, v.args)
    case Fields(names, pats) => FieldsEnv(names, pats, v)
    case _ => []
  }

  function PrefixEnv(items: seq<Pat>, v: Value): Env
    requires Prefix(items, v)
    decreases items
  {
    if items == [] then [] else EnvOf(items[0], v.head) + PrefixEnv(items[1..], v.tail)
  }

  function ArgsEnv(ps: seq<Pat>, vs: seq<Value>): Env
    requires |ps| == |vs| && forall i :: 0 <= i < |ps| ==> Matches(ps[i], vs[i])
    decreases ps
  {
    if ps == [] then [] else
      ArgsEnv(ps[..|ps| - 1], vs[..|vs| - 1]) + EnvOf(ps[|ps| - 1], vs[|vs| - 1])
  }

  function FieldsEnv(names: seq<Name>, ps: seq<Pat>, v: Value): Env
    requires forall i :: 0 <= i < |names| && i < |ps| ==> Field(v, names[i]).Some? && Matches(ps[i], Field(v, names[i]).value)
    decreases ps
  {
    if ps == [] || |names| < |ps| then [] else
      FieldsEnv(names[..|ps| - 1], ps[..|ps| - 1], v) + EnvOf(ps[|ps| - 1], Field(v, names[|ps| - 1]).value)
  }

  /** What the type of the scrutinee guarantees: a constructor has its number of arguments, and a
      record has the fields that are named. */
  predicate Fits(p: Pat, v: Value)
    decreases p
  {
    match p
    case List(items, _) => FitsPrefix(items, v)
    case Constructor(c, args) =>
      v.Variant? && v.con == c ==> |v.args| == |args| && forall i :: 0 <= i < |args| ==> Fits(args[i], v.args[i])
    case Fields(names, pats) =>
      |names| == |pats|
      && (v.Record? ==> forall i :: 0 <= i < |pats| ==> Field(v, names[i]).Some? && Fits(pats[i], Field(v, names[i]).value))
    case _ => true
  }

  predicate FitsPrefix(items: seq<Pat>, v: Value)
    decreases items
  {
    items == [] || (v.Cons? ==> Fits(items[0], v.head) && FitsPrefix(items[1..], v.tail))
  }

  // ---------- the emitted C ----------

  datatype Path = Scrutinee | Head(of: Path) | Tail(of: Path) | Slot(of: Path, i: nat) | FieldOf(of: Path, name: Name)

  /** Reading a path. None is a read through a cell of the wrong shape. */
  function Follow(path: Path, root: Value): Option<Value> {
    match path
    case Scrutinee => Some(root)
    case Head(q) => (match Follow(q, root) case Some(Cons(h, _)) => Some(h) case _ => None)
    case Tail(q) => (match Follow(q, root) case Some(Cons(_, t)) => Some(t) case _ => None)
    case Slot(q, i) => (match Follow(q, root) case Some(Variant(_, vs)) => if i < |vs| then Some(vs[i]) else None case _ => None)
    case FieldOf(q, x) => (match Follow(q, root) case Some(v) => Field(v, x) case None => None)
  }

  /** A C condition. Blank is no expression at all. */
  datatype Test =
    | Blank
    | Yes
    | IsScalar(path: Path, i: int)
    | IsNil(path: Path)
    | IsCons(path: Path)
    | IsVariant(path: Path, con: Name)
    | IsRecord(path: Path)
    | And(left: Test, right: Test)

  predicate Compiles(t: Test) {
    match t
    case Blank => false
    case And(a, b) => Compiles(a) && Compiles(b)
    case _ => true
  }

  /** None if the evaluation reads through a cell of the wrong shape. `&&` stops at the first
      condition that fails. */
  function Check(t: Test, root: Value): Option<bool> {
    match t
    case Blank => None
    case Yes => Some(true)
    case IsScalar(p, i) => Tag(Follow(p, root), (v: Value) => v == Scalar(i))
    case IsNil(p) => Tag(Follow(p, root), (v: Value) => v.Nil?)
    case IsCons(p) => Tag(Follow(p, root), (v: Value) => v.Cons?)
    case IsVariant(p, c) => Tag(Follow(p, root), (v: Value) => v.Variant? && v.con == c)
    case IsRecord(p) => Tag(Follow(p, root), (v: Value) => v.Record?)
    case And(a, b) =>
      match Check(a, root)
      case Some(true) => Check(b, root)
      case o => o
  }

  function Tag(v: Option<Value>, test: Value -> bool): Option<bool> {
    if v.None? then None else Some(test(v.value))
  }

  /** `KaiValue *kai_<name> = <path>;`, with an incref if `shares`. */
  datatype Binding = Binding(name: Name, path: Path, shares: bool)

  function RunBindings(bs: seq<Binding>, root: Value): Option<Env> {
    if bs == [] then Some([]) else
      match (RunBindings(bs[..|bs| - 1], root), Follow(bs[|bs| - 1].path, root))
      case (Some(env), Some(v)) => Some(env + [(bs[|bs| - 1].name, v)])
      case _ => None
  }

  lemma {:induction false} BindingsAppend(a: seq<Binding>, b: seq<Binding>, root: Value)
    ensures RunBindings(a + b, root) ==
      match (RunBindings(a, root), RunBindings(b, root)) { case (Some(x), Some(y)) => Some(x + y) case _ => None }
  {
    if b == [] {
      assert a + b == a;
      if RunBindings(a, root).Some? { assert RunBindings(a, root).value + [] == RunBindings(a, root).value; }
    } else {
      var b' := b[..|b| - 1];
      assert (a + b)[..|a + b| - 1] == a + b';
      BindingsAppend(a, b', root);
      var x, y := RunBindings(a, root), RunBindings(b', root);
      if x.Some? && y.Some? && Follow(b[|b| - 1].path, root).Some? {
        var last := [(b[|b| - 1].name, Follow(b[|b| - 1].path, root).value)];
        assert (x.value + y.value) + last == x.value + (y.value + last);
      }
    }
  }

  // ---------- correctness of what is emitted ----------

  /** A pattern that is only `...rest` has no test. */
  predicate HasTest(p: Pat)
    decreases p
  {
    match p
    case List(items, rest) => (rest.Open? ==> items != []) && forall i :: 0 <= i < |items| ==> HasTest(items[i])
    case Constructor(_, args) => forall i :: 0 <= i < |args| ==> HasTest(args[i])
    case Fields(_, pats) => forall i :: 0 <= i < |pats| ==> HasTest(pats[i])
    case _ => true
  }

  ghost predicate TestOn(t: Test, p: Pat, path: Path, root: Value, v: Value) {
    Follow(path, root) == Some(v) && Fits(p, v) && HasTest(p) ==> Check(t, root) == Some(Matches(p, v))
  }

  /** The test never reads through a cell of the wrong shape, and holds iff the pattern matches.
      It is C exactly when the pattern has a test. */
  ghost predicate TestOk(t: Test, p: Pat, path: Path) {
    && (Compiles(t) <==> HasTest(p))
    && forall root, v :: TestOn(t, p, path, root, v)
  }

  ghost predicate BindOn(bs: seq<Binding>, p: Pat, path: Path, root: Value, v: Value) {
    Follow(path, root) == Some(v) && Matches(p, v) ==> RunBindings(bs, root) == Some(EnvOf(p, v))
  }

  /** Each binding gets one reference of its own: it takes one, or reads a field, which does. */
  predicate OneReference(b: Binding, path: Path, alias: bool) {
    (b.path == path && b.shares == alias) || b.shares == !b.path.FieldOf?
  }

  /** The bindings are the environment of the match. */
  ghost predicate BindOk(bs: seq<Binding>, p: Pat, path: Path, alias: bool) {
    && (forall root, v :: BindOn(bs, p, path, root, v))
    && (HasTest(p) ==> References(bs, path, alias))
  }

  predicate References(bs: seq<Binding>, path: Path, alias: bool) {
    forall k :: 0 <= k < |bs| ==> OneReference(bs[k], path, alias)
  }

  // ---------- lists ----------

  lemma {:induction false} PrefixSnoc(items: seq<Pat>, i: nat, v: Value)
    requires i < |items|
    ensures Prefix(items[..i + 1], v) <==> Prefix(items[..i], v) && After(v, i).Cons? && Matches(items[i], After(v, i).head)
    ensures Prefix(items[..i + 1], v) ==> After(v, i + 1) == After(v, i).tail
    ensures Prefix(items[..i], v) && FitsPrefix(items, v) && After(v, i).Cons? ==> Fits(items[i], After(v, i).head)
    decreases i
  {
    if i == 0 {
      assert items[..1][1..] == [] && items[..0] == [];
    } else if v.Cons? {
      PrefixSnoc(items[1..], i - 1, v.tail);
      assert items[..i + 1][1..] == items[1..][..i] && items[..i][1..] == items[1..][..i - 1];
    }
  }

  predicate AllTested(ps: seq<Pat>, n: nat) {
    forall k :: 0 <= k < n && k < |ps| ==> HasTest(ps[k])
  }

  /** The test `t` is for the first `i` elements, and `cur` leads to the rest of the list. */
  ghost predicate ListOn(t: Test, items: seq<Pat>, i: nat, path: Path, cur: Path, root: Value, v: Value)
    requires i <= |items|
  {
    Follow(path, root) == Some(v) && FitsPrefix(items, v) && AllTested(items, |items|) ==>
      && (i > 0 ==> Check(t, root) == Some(Prefix(items[..i], v)))
      && (Prefix(items[..i], v) ==> Follow(cur, root) == Some(After(v, i)))
  }

  ghost predicate ListOk(t: Test, items: seq<Pat>, i: nat, path: Path, cur: Path)
    requires i <= |items|
  {
    && (if i == 0 then t == Blank && cur == path else t != Blank && (Compiles(t) <==> AllTested(items, i)))
    && forall root, v :: ListOn(t, items, i, path, cur, root, v)
  }

  function Join(t: Test, u: Test): Test {
    if t == Blank then u else And(t, u)
  }

  lemma ListStart(items: seq<Pat>, path: Path)
    ensures ListOk(Blank, items, 0, path, path)
  {
    forall root, v ensures ListOn(Blank, items, 0, path, path, root, v) {
      assert items[..0] == [];
    }
  }

  lemma ListStep(t: Test, items: seq<Pat>, i: nat, path: Path, cur: Path, sub: Test)
    requires i < |items| && ListOk(t, items, i, path, cur) && TestOk(sub, items[i], Head(cur))
    ensures ListOk(Join(Join(t, IsCons(cur)), sub), items, i + 1, path, Tail(cur))
  {
    var t', n, next := Join(Join(t, IsCons(cur)), sub), i + 1, Tail(cur);
    assert AllTested(items, n) <==> AllTested(items, i) && HasTest(items[i]);
    assert Compiles(Join(t, IsCons(cur))) <==> AllTested(items, i);
    assert Compiles(t') <==> AllTested(items, n);
    forall root, v ensures ListOn(t', items, n, path, next, root, v) {
      assert ListOn(t, items, i, path, cur, root, v);
      assert i > 0 || t == Blank;
      ListStepOn(t, items, i, path, cur, sub, root, v);
    }
  }

  lemma ListStepOn(t: Test, items: seq<Pat>, i: nat, path: Path, cur: Path, sub: Test, root: Value, v: Value)
    requires i < |items| && ListOn(t, items, i, path, cur, root, v) && TestOk(sub, items[i], Head(cur))
    requires if i == 0 then t == Blank && cur == path else t != Blank
    ensures ListOn(Join(Join(t, IsCons(cur)), sub), items, i + 1, path, Tail(cur), root, v)
  {
    PrefixSnoc(items, i, v);
    if i == 0 { assert items[..0] == []; }
    if Follow(path, root) == Some(v) && FitsPrefix(items, v) && AllTested(items, |items|) {
      assert HasTest(items[i]);
      ElementStep(t, cur, sub, root, items[i], Prefix(items[..i], v), After(v, i));
    }
  }

  lemma ElementStep(t: Test, cur: Path, sub: Test, root: Value, item: Pat, before: bool, w: Value)
    requires if t == Blank then before else Check(t, root) == Some(before)
    requires before ==> Follow(cur, root) == Some(w) && (w.Cons? ==> Fits(item, w.head))
    requires HasTest(item) && TestOk(sub, item, Head(cur))
    ensures Check(Join(Join(t, IsCons(cur)), sub), root) == Some(before && w.Cons? && Matches(item, w.head))
    ensures before && w.Cons? ==> Follow(Tail(cur), root) == Some(w.tail)
  {
    CheckStep(t, cur, sub, root);
    if before && w.Cons? { assert TestOn(sub, item, Head(cur), root, w.head); }
  }

  /** One more element: the list goes on, and its head passes. */
  lemma CheckStep(t: Test, cur: Path, sub: Test, root: Value)
    requires t == Blank || Check(t, root) != None
    ensures Check(Join(Join(t, IsCons(cur)), sub), root) ==
      if t != Blank && Check(t, root) == Some(false) then Some(false)
      else if Follow(cur, root) == None then None
      else if Follow(cur, root).value.Cons? then Check(sub, root) else Some(false)
  {
    var first := Join(t, IsCons(cur));
    var more := Check(IsCons(cur), root);
    assert more == if Follow(cur, root).None? then None else Some(Follow(cur, root).value.Cons?);
    assert Check(first, root) == if t == Blank || Check(t, root) == Some(true) then more else Some(false);
    assert Check(And(first, sub), root) == match Check(first, root) { case Some(true) => Check(sub, root) case o => o };
    assert Join(first, sub) == And(first, sub);
  }

  lemma ListEnd(t: Test, items: seq<Pat>, rest: Rest, path: Path, cur: Path)
    requires ListOk(t, items, |items|, path, cur) && (items != [] || rest.Open?)
    ensures TestOk(if rest.Closed? then Join(t, IsNil(cur)) else t, List(items, rest), path)
  {
    var p, t' := List(items, rest), if rest.Closed? then Join(t, IsNil(cur)) else t;
    assert items[..|items|] == items;
    var n := |items|;
    assert HasTest(p) <==> items != [] && AllTested(items, n);
    assert Compiles(t') <==> Compiles(t);
    assert Compiles(t') <==> HasTest(p);
    forall root, v ensures TestOn(t', p, path, root, v) {
      assert ListOn(t, items, n, path, cur, root, v);
    }
  }

  // ---------- constructors and records ----------

  ghost predicate ArgsOn(t: Test, p: Pat, i: nat, path: Path, root: Value, v: Value)
    requires p.Constructor? && i <= |p.args|
  {
    Follow(path, root) == Some(v) && Fits(p, v) && HasTest(p) ==>
      Check(t, root) == Some(v.Variant? && v.con == p.con && |v.args| == |p.args| && forall k :: 0 <= k < i ==> Matches(p.args[k], v.args[k]))
  }

  ghost predicate ArgsOk(t: Test, p: Pat, i: nat, path: Path)
    requires p.Constructor? && i <= |p.args|
  {
    (Compiles(t) <==> AllTested(p.args, i)) && forall root, v :: ArgsOn(t, p, i, path, root, v)
  }

  lemma ArgsStep(t: Test, p: Pat, i: nat, path: Path, sub: Test)
    requires p.Constructor? && i < |p.args| && ArgsOk(t, p, i, path) && TestOk(sub, p.args[i], Slot(path, i))
    ensures ArgsOk(And(t, sub), p, i + 1, path)
  {
    assert AllTested(p.args, i + 1) <==> AllTested(p.args, i) && HasTest(p.args[i]);
    var t', n := And(t, sub), i + 1;
    forall root, v ensures ArgsOn(t', p, n, path, root, v) {
      assert ArgsOn(t, p, i, path, root, v);
      if v.Variant? && i < |v.args| { assert TestOn(sub, p.args[i], Slot(path, i), root, v.args[i]); }
    }
  }

  lemma ArgsDone(t: Test, p: Pat, path: Path)
    requires p.Constructor? && ArgsOk(t, p, |p.args|, path)
    ensures TestOk(t, p, path)
  {
    var n := |p.args|;
    forall root, v ensures TestOn(t, p, path, root, v) { assert ArgsOn(t, p, n, path, root, v); }
  }

  ghost predicate FieldsOn(t: Test, p: Pat, i: nat, path: Path, root: Value, v: Value)
    requires p.Fields? && i <= |p.pats|
  {
    Follow(path, root) == Some(v) && Fits(p, v) && HasTest(p) ==>
      Check(t, root) == Some(v.Record? && forall k :: 0 <= k < i ==> Matches(p.pats[k], Field(v, p.names[k]).value))
  }

  ghost predicate FieldsOk(t: Test, p: Pat, i: nat, path: Path)
    requires p.Fields? && i <= |p.pats|
  {
    (Compiles(t) <==> AllTested(p.pats, i)) && forall root, v :: FieldsOn(t, p, i, path, root, v)
  }

  lemma FieldsStep(t: Test, p: Pat, i: nat, path: Path, sub: Test)
    requires p.Fields? && i < |p.pats| == |p.names| && FieldsOk(t, p, i, path) && TestOk(sub, p.pats[i], FieldOf(path, p.names[i]))
    ensures FieldsOk(And(t, sub), p, i + 1, path)
  {
    assert AllTested(p.pats, i + 1) <==> AllTested(p.pats, i) && HasTest(p.pats[i]);
    var t', n := And(t, sub), i + 1;
    forall root, v ensures FieldsOn(t', p, n, path, root, v) {
      assert FieldsOn(t, p, i, path, root, v);
      if Field(v, p.names[i]).Some? { assert TestOn(sub, p.pats[i], FieldOf(path, p.names[i]), root, Field(v, p.names[i]).value); }
    }
  }

  lemma FieldsDone(t: Test, p: Pat, path: Path)
    requires p.Fields? && FieldsOk(t, p, |p.pats|, path)
    ensures TestOk(t, p, path)
  {
    var n := |p.pats|;
    forall root, v ensures TestOn(t, p, path, root, v) { assert FieldsOn(t, p, n, path, root, v); }
  }

  // ---------- emitting the test ----------

  /** Each field of a record pattern has a name and a pattern. */
  predicate Paired(p: Pat)
    decreases p
  {
    match p
    case List(items, _) => forall i :: 0 <= i < |items| ==> Paired(items[i])
    case Constructor(_, args) => forall i :: 0 <= i < |args| ==> Paired(args[i])
    case Fields(names, pats) => |names| == |pats| && forall i :: 0 <= i < |pats| ==> Paired(pats[i])
    case _ => true
  }

  lemma EmptyListTest(path: Path)
    ensures TestOk(IsNil(path), List([], Closed), path)
  {
    var t, p := IsNil(path), List([], Closed);
    forall root, v ensures TestOn(t, p, path, root, v) { assert After(v, 0) == v; }
  }

  method EmitTest(p: Pat, path: Path) returns (t: Test)
    requires Paired(p)
    ensures TestOk(t, p, path)
    decreases p, 1
  {
    match p
    case Wild => t := Yes;
    case Bind(_) => t := Yes;
    case Literal(i) => t := IsScalar(path, i);
    case List(items, rest) =>
      if items == [] && rest.Closed? {
        EmptyListTest(path);
        t := IsNil(path);
      } else {
        t := EmitListTest(p, path);
      }
    case Constructor(c, args) =>
      t := IsVariant(path, c);
      var i := 0;
      while i < |args|
        invariant i <= |args| && ArgsOk(t, p, i, path)
      {
        var sub := EmitTest(args[i], Slot(path, i));
        ArgsStep(t, p, i, path, sub);
        t := And(t, sub);
        i := i + 1;
      }
      ArgsDone(t, p, path);
    case Fields(names, pats) =>
      t := IsRecord(path);
      var i := 0;
      while i < |pats|
        invariant i <= |pats| && FieldsOk(t, p, i, path)
      {
        var sub := EmitTest(pats[i], FieldOf(path, names[i]));
        FieldsStep(t, p, i, path, sub);
        t := And(t, sub);
        i := i + 1;
      }
      FieldsDone(t, p, path);
  }

  method EmitListTest(p: Pat, path: Path) returns (t: Test)
    requires p.List? && Paired(p) && (p.items != [] || p.rest.Open?)
    ensures TestOk(t, p, path)
    decreases p, 0
  {
    var items, cur, i := p.items, path, 0;
    t := Blank;
    ListStart(items, path);
    while i < |items|
      invariant i <= |items| && ListOk(t, items, i, path, cur)
    {
      var sub := EmitTest(items[i], Head(cur));
      ListStep(t, items, i, path, cur, sub);
      t := Join(Join(t, IsCons(cur)), sub);
      cur := Tail(cur);
      i := i + 1;
    }
    ListEnd(t, items, p.rest, path, cur);
    if p.rest.Closed? { t := Join(t, IsNil(cur)); }
  }

  // ---------- emitting the bindings ----------

  lemma {:induction false} PrefixParts(items: seq<Pat>, i: nat, v: Value)
    requires i <= |items| && Prefix(items, v)
    ensures Prefix(items[..i], v)
    ensures i < |items| ==> After(v, i).Cons? && Matches(items[i], After(v, i).head) && After(v, i + 1) == After(v, i).tail
    decreases i
  {
    if i > 0 {
      PrefixParts(items[1..], i - 1, v.tail);
      assert items[..i][1..] == items[1..][..i - 1];
    }
  }

  lemma {:induction false} PrefixEnvSnoc(items: seq<Pat>, i: nat, v: Value)
    requires i < |items| && Prefix(items, v) && Prefix(items[..i], v) && Prefix(items[..i + 1], v)
    requires After(v, i).Cons? && Matches(items[i], After(v, i).head)
    ensures PrefixEnv(items[..i + 1], v) == PrefixEnv(items[..i], v) + EnvOf(items[i], After(v, i).head)
    decreases i
  {
    if i == 0 {
      assert items[..1][1..] == [] && items[..0] == [];
    } else {
      assert items[..i + 1][1..] == items[1..][..i] && items[..i][1..] == items[1..][..i - 1];
      PrefixEnvSnoc(items[1..], i - 1, v.tail);
    }
  }

  ghost predicate ListBindOn(bs: seq<Binding>, items: seq<Pat>, i: nat, path: Path, cur: Path, root: Value, v: Value)
    requires i <= |items|
  {
    Follow(path, root) == Some(v) && Prefix(items, v) ==>
      && Prefix(items[..i], v) && RunBindings(bs, root) == Some(PrefixEnv(items[..i], v))
      && Follow(cur, root) == Some(After(v, i))
  }

  lemma ListBindStep(bs: seq<Binding>, items: seq<Pat>, i: nat, path: Path, cur: Path, sub: seq<Binding>)
    requires i < |items| && BindOk(sub, items[i], Head(cur), true)
    requires forall root, v :: ListBindOn(bs, items, i, path, cur, root, v)
    ensures var n := i + 1; forall root, v :: ListBindOn(bs + sub, items, n, path, Tail(cur), root, v)
  {
    var n, bs', next := i + 1, bs + sub, Tail(cur);
    forall root, v ensures ListBindOn(bs', items, n, path, next, root, v) {
      assert ListBindOn(bs, items, i, path, cur, root, v);
      if Follow(path, root) == Some(v) && Prefix(items, v) {
        PrefixParts(items, i, v);
        PrefixParts(items, n, v);
        PrefixEnvSnoc(items, i, v);
        BindingsAppend(bs, sub, root);
        assert BindOn(sub, items[i], Head(cur), root, After(v, i).head);
      }
    }
  }

  ghost predicate ArgsBindOn(bs: seq<Binding>, p: Pat, i: nat, path: Path, root: Value, v: Value)
    requires p.Constructor? && i <= |p.args|
  {
    Follow(path, root) == Some(v) && Matches(p, v) ==> RunBindings(bs, root) == Some(ArgsEnv(p.args[..i], v.args[..i]))
  }

  lemma ArgsBindStep(bs: seq<Binding>, p: Pat, i: nat, path: Path, sub: seq<Binding>)
    requires p.Constructor? && i < |p.args| && BindOk(sub, p.args[i], Slot(path, i), true)
    requires forall root, v :: ArgsBindOn(bs, p, i, path, root, v)
    ensures var n := i + 1; forall root, v :: ArgsBindOn(bs + sub, p, n, path, root, v)
  {
    var n, bs' := i + 1, bs + sub;
    forall root, v ensures ArgsBindOn(bs', p, n, path, root, v) {
      assert ArgsBindOn(bs, p, i, path, root, v);
      if Follow(path, root) == Some(v) && Matches(p, v) {
        BindingsAppend(bs, sub, root);
        assert BindOn(sub, p.args[i], Slot(path, i), root, v.args[i]);
        assert p.args[..n][..i] == p.args[..i] && v.args[..n][..i] == v.args[..i];
      }
    }
  }

  ghost predicate FieldsBindOn(bs: seq<Binding>, p: Pat, i: nat, path: Path, root: Value, v: Value)
    requires p.Fields? && i <= |p.pats| == |p.names|
  {
    Follow(path, root) == Some(v) && Matches(p, v) ==> RunBindings(bs, root) == Some(FieldsEnv(p.names[..i], p.pats[..i], v))
  }

  lemma FieldsBindStep(bs: seq<Binding>, p: Pat, i: nat, path: Path, sub: seq<Binding>)
    requires p.Fields? && i < |p.pats| == |p.names| && BindOk(sub, p.pats[i], FieldOf(path, p.names[i]), false)
    requires forall root, v :: FieldsBindOn(bs, p, i, path, root, v)
    ensures var n := i + 1; forall root, v :: FieldsBindOn(bs + sub, p, n, path, root, v)
  {
    var n, bs' := i + 1, bs + sub;
    forall root, v ensures FieldsBindOn(bs', p, n, path, root, v) {
      assert FieldsBindOn(bs, p, i, path, root, v);
      if Follow(path, root) == Some(v) && Matches(p, v) {
        BindingsAppend(bs, sub, root);
        assert BindOn(sub, p.pats[i], FieldOf(path, p.names[i]), root, Field(v, p.names[i]).value);
        assert p.pats[..n][..i] == p.pats[..i] && p.names[..n][..i] == p.names[..i];
      }
    }
  }

  lemma OneBinding(x: Name, path: Path, shares: bool, root: Value)
    ensures RunBindings([Binding(x, path, shares)], root) == match Follow(path, root) { case Some(v) => Some([(x, v)]) case None => None }
  {
    var bs := [Binding(x, path, shares)];
    assert bs[..0] == [];
    assert RunBindings(bs[..0], root) == Some([]);
    if Follow(path, root).Some? { assert [] + [(x, Follow(path, root).value)] == [(x, Follow(path, root).value)]; }
  }

  method EmitBindings(p: Pat, path: Path, alias: bool) returns (bs: seq<Binding>)
    requires Paired(p)
    ensures BindOk(bs, p, path, alias)
    decreases p, 1
  {
    match p
    case Wild => bs := [];
    case Literal(_) => bs := [];
    case Bind(x) =>
      bs := [Binding(x, path, alias)];
      forall root, v ensures BindOn(bs, p, path, root, v) { OneBinding(x, path, alias, root); }
    case List(_, _) => bs := EmitListBindings(p, path, alias);
    case Constructor(_, args) => bs := EmitArgBindings(p, path, alias);
    case Fields(_, _) => bs := EmitFieldBindings(p, path, alias);
  }

  method EmitListBindings(p: Pat, path: Path, alias: bool) returns (bs: seq<Binding>)
    requires Paired(p) && p.List?
    ensures BindOk(bs, p, path, alias)
    decreases p, 0
  {
    var items, cur, i := p.items, path, 0;
    bs := [];
    assert items[..0] == [];
    while i < |items|
      invariant i <= |items| && (AllTested(items, i) ==> References(bs, path, alias)) && (i > 0 ==> cur.Tail?)
      invariant forall root, v :: ListBindOn(bs, items, i, path, cur, root, v)
    {
      var sub := EmitBindings(items[i], Head(cur), true);
      ListBindStep(bs, items, i, path, cur, sub);
      bs := bs + sub;
      cur := Tail(cur);
      i := i + 1;
    }
    assert items[..i] == items;
    ghost var fixed := bs;
    if p.rest.Open? { bs := bs + [Binding(p.rest.name, cur, true)]; }
    forall root, v ensures BindOn(bs, p, path, root, v) {
      assert ListBindOn(fixed, items, i, path, cur, root, v);
      if p.rest.Open? {
        BindingsAppend(fixed, [Binding(p.rest.name, cur, true)], root);
        OneBinding(p.rest.name, cur, true, root);
      } else if Matches(p, v) {
        assert PrefixEnv(items, v) + [] == PrefixEnv(items, v);
      }
    }
  }

  method EmitArgBindings(p: Pat, path: Path, alias: bool) returns (bs: seq<Binding>)
    requires Paired(p) && p.Constructor?
    ensures BindOk(bs, p, path, alias)
    decreases p, 0
  {
    var i := 0;
    bs := [];
    while i < |p.args|
      invariant i <= |p.args| && (AllTested(p.args, i) ==> References(bs, path, alias))
      invariant forall root, v :: ArgsBindOn(bs, p, i, path, root, v)
    {
      var sub := EmitBindings(p.args[i], Slot(path, i), true);
      ArgsBindStep(bs, p, i, path, sub);
      bs, i := bs + sub, i + 1;
      assert forall root, v :: ArgsBindOn(bs, p, i, path, root, v);
    }
    forall root, v ensures BindOn(bs, p, path, root, v) {
      assert ArgsBindOn(bs, p, i, path, root, v);
      if Matches(p, v) { assert p.args[..i] == p.args && v.args[..i] == v.args; }
    }
  }

  method EmitFieldBindings(p: Pat, path: Path, alias: bool) returns (bs: seq<Binding>)
    requires Paired(p) && p.Fields?
    ensures BindOk(bs, p, path, alias)
    decreases p, 0
  {
    var i := 0;
    bs := [];
    while i < |p.pats|
      invariant i <= |p.pats| && (AllTested(p.pats, i) ==> References(bs, path, alias))
      invariant forall root, v :: FieldsBindOn(bs, p, i, path, root, v)
    {
      var sub := EmitBindings(p.pats[i], FieldOf(path, p.names[i]), false);
      FieldsBindStep(bs, p, i, path, sub);
      bs, i := bs + sub, i + 1;
      assert forall root, v :: FieldsBindOn(bs, p, i, path, root, v);
    }
    forall root, v ensures BindOn(bs, p, path, root, v) {
      assert FieldsBindOn(bs, p, i, path, root, v);
      if Matches(p, v) { assert p.pats[..i] == p.pats && p.names[..i] == p.names; }
    }
  }

  // ---------- match ----------

  datatype Arm = Arm(pat: Pat, guarded: bool)
  datatype ArmCode = ArmCode(test: Test, bindings: seq<Binding>, guarded: bool)

  /** The arm whose body runs, with what it sees; or none, which panics; or a read through a
      cell of the wrong shape. */
  datatype Chosen = Body(arm: nat, env: Env) | NonExhaustive | Stuck

  type Guards = (nat, Env) -> bool

  /** The first arm whose pattern matches and whose guard holds. */
  function FirstArm(arms: seq<Arm>, i: nat, v: Value, guards: Guards): Chosen
    decreases |arms| - i
  {
    if i >= |arms| then NonExhaustive
    else if Matches(arms[i].pat, v) && (arms[i].guarded ==> guards(i, EnvOf(arms[i].pat, v))) then Body(i, EnvOf(arms[i].pat, v))
    else FirstArm(arms, i + 1, v, guards)
  }

  /** The emitted chain of `if`s from arm `i`. */
  function RunArms(code: seq<ArmCode>, i: nat, v: Value, guards: Guards): Chosen
    decreases |code| - i
  {
    if i >= |code| then NonExhaustive else
      match Check(code[i].test, v)
      case None => Stuck
      case Some(false) => RunArms(code, i + 1, v, guards)
      case Some(true) =>
        match RunBindings(code[i].bindings, v)
        case None => Stuck
        case Some(env) =>
          if !code[i].guarded || guards(i, env) then Body(i, env) else RunArms(code, i + 1, v, guards)
  }

  predicate ArmFits(arm: Arm, v: Value) {
    Fits(arm.pat, v) && HasTest(arm.pat)
  }

  ghost predicate ArmOk(arm: Arm, code: ArmCode) {
    code.guarded == arm.guarded && TestOk(code.test, arm.pat, Scrutinee) && BindOk(code.bindings, arm.pat, Scrutinee, true)
  }

  lemma {:induction false} ArmsAgree(arms: seq<Arm>, code: seq<ArmCode>, i: nat, v: Value, guards: Guards)
    requires |arms| == |code| && forall k :: 0 <= k < |arms| ==> ArmOk(arms[k], code[k]) && ArmFits(arms[k], v)
    ensures RunArms(code, i, v, guards) == FirstArm(arms, i, v, guards)
    decreases |arms| - i
  {
    if i < |arms| {
      assert ArmOk(arms[i], code[i]) && ArmFits(arms[i], v);
      assert TestOn(code[i].test, arms[i].pat, Scrutinee, v, v);
      assert BindOn(code[i].bindings, arms[i].pat, Scrutinee, v, v);
      ArmsAgree(arms, code, i + 1, v, guards);
    }
  }

  method EmitMatch(arms: seq<Arm>) returns (code: seq<ArmCode>)
    requires forall k :: 0 <= k < |arms| ==> Paired(arms[k].pat)
    ensures |code| == |arms| && forall k :: 0 <= k < |arms| ==> ArmOk(arms[k], code[k])
    ensures forall v: Value, guards: Guards :: (forall k :: 0 <= k < |arms| ==> ArmFits(arms[k], v)) ==>
      RunArms(code, 0, v, guards) == FirstArm(arms, 0, v, guards)
  {
    code := [];
    while |code| < |arms|
      invariant |code| <= |arms| && forall k :: 0 <= k < |code| ==> ArmOk(arms[k], code[k])
    {
      var pat := arms[|code|].pat;
      var test := EmitTest(pat, Scrutinee);
      var bindings := EmitBindings(pat, Scrutinee, true);
      code := code + [ArmCode(test, bindings, arms[|code|].guarded)];
    }
    forall v: Value, guards: Guards | forall k :: 0 <= k < |arms| ==> ArmFits(arms[k], v)
      ensures RunArms(code, 0, v, guards) == FirstArm(arms, 0, v, guards)
    {
      ArmsAgree(arms, code, 0, v, guards);
    }
  }
}
