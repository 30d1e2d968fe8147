/** What the patterns that are compiled match and bind, part by part. */
module EmitPlaces {
  import opened Patterns

  /** An element of a list, what is left of it, an argument of a constructor, a field of a record. */
  datatype Step = Element(i: nat) | RestFrom(i: nat) | Argument(i: nat) | Entry(i: nat)

  type Place = seq<Step>

  /** The rest of a list stands for a pattern that binds its name. */
  function Sub(p: Pat, s: Step): (q: Option<Pat>) {
    match s
    case Element(i) => if p.List? && i < |p.items| then Some(p.items[i]) else None
    case RestFrom(i) => if p.List? && i == |p.items| && p.rest.Open? then Some(Bind(p.rest.name)) else None
    case Argument(i) => if p.Constructor? && i < |p.args| then Some(p.args[i]) else None
    case Entry(i) => if p.Fields? && i < |p.names| && i < |p.pats| then Some(p.pats[i]) else None
  }

  /** The part of the value that this part of the pattern is for. */
  function Part(p: Pat, v: Value, s: Step): Option<Value> {
    match s
    case Element(i) => if After(v, i).Cons? then Some(After(v, i).head) else None
    case RestFrom(i) => Some(After(v, i))
    case Argument(i) => if v.Variant? && i < |v.args| then Some(v.args[i]) else None
    case Entry(i) => if p.Fields? && i < |p.names| then Field(v, p.names[i]) else None
  }

  function PatAt(p: Pat, at: Place): Option<Pat>
    decreases |at|
  {
    if at == [] then Some(p) else if Sub(p, at[0]).None? then None else PatAt(Sub(p, at[0]).value, at[1..])
  }

  function ValAt(p: Pat, v: Value, at: Place): Option<Value>
    decreases |at|
  {
    if at == [] then Some(v)
    else if Sub(p, at[0]).None? || Part(p, v, at[0]).None? then None
    else ValAt(Sub(p, at[0]).value, Part(p, v, at[0]).value, at[1..])
  }

  /** A literal asks for its number, a constructor for its name and as many arguments as it has, a
      record for its fields, and a list for as many elements as it has, and for no more if it is closed. */
  predicate Asks(p: Pat, v: Value) {
    match p
    case Literal(i) => v == Scalar(i)
    case List(items, rest) => (forall i :: 0 <= i < |items| ==> After(v, i).Cons?) && (rest.Closed? ==> After(v, |items|) == Nil)
    case Constructor(c, args) => v.Variant? && v.con == c && |v.args| == |args|
    case Fields(names, pats) => v.Record? && forall i :: 0 <= i < |names| && i < |pats| ==> Field(v, names[i]).Some?
    case _ => true
  }

  predicate AskedAt(p: Pat, v: Value, at: Place) {
    PatAt(p, at).Some? ==> ValAt(p, v, at).Some? && Asks(PatAt(p, at).value, ValAt(p, v, at).value)
  }

  predicate ElementMatches(items: seq<Pat>, v: Value, i: nat) {
    i < |items| && After(v, i).Cons? && Matches(items[i], After(v, i).head)
  }

  lemma {:induction false} PrefixElement(items: seq<Pat>, v: Value, i: nat)
    requires Prefix(items, v) && i < |items|
    ensures ElementMatches(items, v, i)
    decreases i
  {
    if i > 0 { PrefixElement(items[1..], v.tail, i - 1); }
  }

  lemma {:induction false} ElementMisses(items: seq<Pat>, v: Value) returns (i: nat)
    requires !Prefix(items, v)
    ensures i < |items| && !ElementMatches(items, v, i)
    decreases items
  {
    if !v.Cons? || !Matches(items[0], v.head) {
      i := 0;
    } else {
      i := ElementMisses(items[1..], v.tail);
      i := i + 1;
    }
  }

  /** A pattern matches iff the value has what it asks for itself, and each part matches its part. */
  predicate PartMatches(p: Pat, v: Value, s: Step) {
    Sub(p, s).Some? ==> Part(p, v, s).Some? && Matches(Sub(p, s).value, Part(p, v, s).value)
  }

  lemma MatchParts(p: Pat, v: Value, s: Step)
    requires Matches(p, v)
    ensures Asks(p, v) && PartMatches(p, v, s)
  {
    if p.List? {
      forall i | 0 <= i < |p.items| ensures After(v, i).Cons? { PrefixElement(p.items, v, i); }
      if s.Element? && s.i < |p.items| { PrefixElement(p.items, v, s.i); }
    }
  }

  lemma PartsMatch(p: Pat, v: Value) returns (s: Step)
    requires !Matches(p, v) && Asks(p, v)
    ensures Sub(p, s).Some? && Part(p, v, s).Some? && !Matches(Sub(p, s).value, Part(p, v, s).value)
  {
    match p
    case List(items, _) =>
      var i := ElementMisses(items, v);
      s := Element(i);
    case Constructor(_, args) =>
      var i :| 0 <= i < |args| && !Matches(args[i], v.args[i]);
      s := Argument(i);
    case Fields(names, pats) =>
      var i :| 0 <= i < |names| && i < |pats| && !Matches(pats[i], Field(v, names[i]).value);
      s := Entry(i);
  }

  lemma {:induction false} MatchAsks(p: Pat, v: Value, at: Place)
    requires Matches(p, v)
    ensures AskedAt(p, v, at)
    decreases |at|
  {
    MatchParts(p, v, if at == [] then Element(0) else at[0]);
    if at != [] && Sub(p, at[0]).Some? { MatchAsks(Sub(p, at[0]).value, Part(p, v, at[0]).value, at[1..]); }
  }

  lemma {:induction false} MissAsks(p: Pat, v: Value) returns (at: Place)
    requires !Matches(p, v)
    ensures !AskedAt(p, v, at)
    decreases p
  {
    at := [];
    if Asks(p, v) {
      var s := PartsMatch(p, v);
      SubSmaller(p, s);
      var rest := MissAsks(Sub(p, s).value, Part(p, v, s).value);
      at := [s] + rest;
      assert at[1..] == rest;
    }
  }

  lemma SubSmaller(p: Pat, s: Step)
    requires Sub(p, s).Some? && !s.RestFrom?
    ensures Sub(p, s).value < p
  {
  }

  /** A value matches if it has what each part of the pattern asks for. */
  lemma MatchesByPlace(p: Pat, v: Value)
    ensures Matches(p, v) <==> forall at :: AskedAt(p, v, at)
  {
    if Matches(p, v) {
      forall at ensures AskedAt(p, v, at) { MatchAsks(p, v, at); }
    } else {
      var at := MissAsks(p, v);
    }
  }

  // ---------- what it binds ----------

  /** The name stands in the pattern, and `u` is the part of the value in its place. */
  ghost predicate BindsAt(p: Pat, v: Value, x: Name, u: Value, at: Place) {
    PatAt(p, at) == Some(Bind(x)) && ValAt(p, v, at) == Some(u)
  }

  /** Some part binds it. */
  ghost predicate BoundBehind(p: Pat, v: Value, b: (Name, Value), s: Step) {
    && Sub(p, s).Some? && Part(p, v, s).Some? && Matches(Sub(p, s).value, Part(p, v, s).value)
    && b in EnvOf(Sub(p, s).value, Part(p, v, s).value)
  }

  lemma {:induction false} PrefixBinds(items: seq<Pat>, v: Value, b: (Name, Value)) returns (i: nat)
    requires Prefix(items, v) && b in PrefixEnv(items, v)
    ensures i < |items| && After(v, i).Cons? && Matches(items[i], After(v, i).head) && b in EnvOf(items[i], After(v, i).head)
    decreases items
  {
    if b in EnvOf(items[0], v.head) {
      i := 0;
    } else {
      i := PrefixBinds(items[1..], v.tail, b);
      i := i + 1;
    }
  }

  lemma {:induction false} BindsPrefix(items: seq<Pat>, v: Value, b: (Name, Value), i: nat)
    requires Prefix(items, v) && i < |items| && After(v, i).Cons? && Matches(items[i], After(v, i).head) && b in EnvOf(items[i], After(v, i).head)
    ensures b in PrefixEnv(items, v)
    decreases i
  {
    if i > 0 { BindsPrefix(items[1..], v.tail, b, i - 1); }
  }

  lemma {:induction false} ArgsBind(ps: seq<Pat>, vs: seq<Value>, b: (Name, Value)) returns (i: nat)
    requires |ps| == |vs| && (forall i :: 0 <= i < |ps| ==> Matches(ps[i], vs[i])) && b in ArgsEnv(ps, vs)
    ensures i < |ps| && b in EnvOf(ps[i], vs[i])
    decreases ps
  {
    var n := |ps| - 1;
    if b in EnvOf(ps[n], vs[n]) {
      i := n;
    } else {
      i := ArgsBind(ps[..n], vs[..n], b);
    }
  }

  lemma {:induction false} BindsArgs(ps: seq<Pat>, vs: seq<Value>, b: (Name, Value), i: nat)
    requires |ps| == |vs| && (forall i :: 0 <= i < |ps| ==> Matches(ps[i], vs[i])) && i < |ps| && b in EnvOf(ps[i], vs[i])
    ensures b in ArgsEnv(ps, vs)
    decreases ps
  {
    if i < |ps| - 1 { BindsArgs(ps[..|ps| - 1], vs[..|ps| - 1], b, i); }
  }

  lemma {:induction false} FieldsBind(names: seq<Name>, ps: seq<Pat>, v: Value, b: (Name, Value)) returns (i: nat)
    requires forall i :: 0 <= i < |names| && i < |ps| ==> Field(v, names[i]).Some? && Matches(ps[i], Field(v, names[i]).value)
    requires b in FieldsEnv(names, ps, v)
    ensures i < |names| && i < |ps| && b in EnvOf(ps[i], Field(v, names[i]).value)
    decreases ps
  {
    var n := |ps| - 1;
    if b in EnvOf(ps[n], Field(v, names[n]).value) {
      i := n;
    } else {
      i := FieldsBind(names[..n], ps[..n], v, b);
    }
  }

  lemma {:induction false} BindsFields(names: seq<Name>, ps: seq<Pat>, v: Value, b: (Name, Value), i: nat)
    requires forall i :: 0 <= i < |names| && i < |ps| ==> Field(v, names[i]).Some? && Matches(ps[i], Field(v, names[i]).value)
    requires |ps| <= |names| && i < |ps| && b in EnvOf(ps[i], Field(v, names[i]).value)
    ensures b in FieldsEnv(names, ps, v)
    decreases ps
  {
    if i < |ps| - 1 { BindsFields(names[..|ps| - 1], ps[..|ps| - 1], v, b, i); }
  }

  lemma BinderStep(p: Pat, v: Value, b: (Name, Value)) returns (s: Step)
    requires Matches(p, v) && b in EnvOf(p, v) && !p.Bind?
    ensures BoundBehind(p, v, b, s)
  {
    match p
    case List(items, rest) =>
      if b in PrefixEnv(items, v) {
        var i := PrefixBinds(items, v, b);
        s := Element(i);
      } else {
        s := RestFrom(|items|);
      }
    case Constructor(_, args) => var i := ArgsBind(args, v.args, b); s := Argument(i);
    case Fields(names, pats) => var i := FieldsBind(names, pats, v, b); s := Entry(i);
  }

  lemma StepBinder(p: Pat, v: Value, b: (Name, Value), s: Step)
    requires Matches(p, v) && BoundBehind(p, v, b, s) && (p.Fields? ==> |p.names| == |p.pats|)
    ensures b in EnvOf(p, v)
  {
    match s
    case Element(i) => BindsPrefix(p.items, v, b, i);
    case RestFrom(i) => RestBinds(p, v, b);
    case Argument(i) => BindsArgs(p.args, v.args, b, i);
    case Entry(i) => BindsFields(p.names, p.pats, v, b, i);
  }

  lemma RestBinds(p: Pat, v: Value, b: (Name, Value))
    requires Matches(p, v) && p.List? && p.rest.Open? && b in EnvOf(Bind(p.rest.name), After(v, |p.items|))
    ensures b in EnvOf(p, v)
  {
    assert b == (p.rest.name, After(v, |p.items|));
  }

  lemma {:induction false} BinderFound(p: Pat, v: Value, b: (Name, Value)) returns (at: Place)
    requires Matches(p, v) && b in EnvOf(p, v)
    ensures BindsAt(p, v, b.0, b.1, at)
    decreases p, if p.Bind? then 0 else 1
  {
    at := [];
    if !p.Bind? {
      var s := BinderStep(p, v, b);
      var rest: Place := [];
      if s.RestFrom? {
        assert b.0 == p.rest.name;
      } else {
        SubSmaller(p, s);
        rest := BinderFound(Sub(p, s).value, Part(p, v, s).value, b);
      }
      at := [s] + rest;
      assert at[1..] == rest;
    }
  }

  lemma {:induction false} FoundBinder(p: Pat, v: Value, b: (Name, Value), at: Place)
    requires Matches(p, v) && BindsAt(p, v, b.0, b.1, at) && Paired(p)
    ensures b in EnvOf(p, v)
    decreases |at|
  {
    if at != [] {
      MatchParts(p, v, at[0]);
      PairedPart(p, at[0]);
      FoundBinder(Sub(p, at[0]).value, Part(p, v, at[0]).value, b, at[1..]);
      StepBinder(p, v, b, at[0]);
    }
  }

  lemma PairedPart(p: Pat, s: Step)
    requires Paired(p) && Sub(p, s).Some?
    ensures Paired(Sub(p, s).value) && (p.Fields? ==> |p.names| == |p.pats|)
  {
  }

  /** It binds each of its names, that of a list's rest included, to the part of the value that stands
      in the name's place. */
  lemma BindsByPlace(p: Pat, v: Value, x: Name, u: Value)
    requires Matches(p, v) && Paired(p)
    ensures (x, u) in EnvOf(p, v) <==> exists at :: BindsAt(p, v, x, u, at)
  {
    if (x, u) in EnvOf(p, v) { var at := BinderFound(p, v, (x, u)); }
    if at :| BindsAt(p, v, x, u, at) { FoundBinder(p, v, (x, u), at); }
  }
}
