/** What a pattern matches and binds, part by part. */
module PatPlaces {
  import opened Stage0

  /** Which argument of which argument. */
  type Place = seq<nat>

  function PatAt(p: Pat, at: Place): Option<Pat> {
    if at == [] then Some(p)
    else if p.Con? && at[0] < |p.args| then PatAt(p.args[at[0]], at[1..])
    else None
  }

  function ValAt(v: V, at: Place): Option<V> {
    if at == [] then Some(v)
    else if v.Data? && at[0] < |v.args| then ValAt(v.args[at[0]], at[1..])
    else None
  }

  /** A literal asks for its number, a constructor for its name and as many arguments as it has. */
  predicate Asks(p: Pat, v: V) {
    match p
    case PLit(i) => v == Int(i)
    case Con(c, ps) => v.Data? && v.con == c && |v.args| == |ps|
    case _ => true
  }

  predicate AskedAt(p: Pat, v: V, at: Place) {
    PatAt(p, at).Some? ==> ValAt(v, at).Some? && Asks(PatAt(p, at).value, ValAt(v, at).value)
  }

  lemma {:induction false} MatchesAll(ps: seq<Pat>, vs: seq<V>)
    requires |ps| == |vs|
    ensures AllMatch(ps, vs) <==> forall i :: 0 <= i < |ps| ==> Matches(ps[i], vs[i])
  {
    if ps != [] {
      MatchesAll(ps[1..], vs[1..]);
      assert forall i :: 0 < i < |ps| ==> ps[i] == ps[1..][i - 1] && vs[i] == vs[1..][i - 1];
      if AllMatch(ps, vs) {
        forall i | 0 <= i < |ps| ensures Matches(ps[i], vs[i]) { if i > 0 { assert Matches(ps[1..][i - 1], vs[1..][i - 1]); } }
      }
      if forall i :: 0 <= i < |ps| ==> Matches(ps[i], vs[i]) {
        forall i | 0 <= i < |ps[1..]| ensures Matches(ps[1..][i], vs[1..][i]) { assert Matches(ps[i + 1], vs[i + 1]); }
      }
    }
  }

  lemma {:induction false} MatchAsks(p: Pat, v: V, at: Place)
    requires Matches(p, v)
    ensures AskedAt(p, v, at)
    decreases |at|
  {
    if p.Con? { MatchesAll(p.args, v.args); }
    if at != [] && p.Con? && at[0] < |p.args| { MatchAsks(p.args[at[0]], v.args[at[0]], at[1..]); }
  }

  lemma {:induction false} MissAsks(p: Pat, v: V) returns (at: Place)
    requires !Matches(p, v)
    ensures !AskedAt(p, v, at)
    decreases p
  {
    at := [];
    if Asks(p, v) {
      MatchesAll(p.args, v.args);
      var i :| 0 <= i < |p.args| && !Matches(p.args[i], v.args[i]);
      var rest := MissAsks(p.args[i], v.args[i]);
      at := [i] + rest;
      assert at[1..] == rest;
    }
  }

  /** A value matches if it has what each part of the pattern asks for. */
  lemma MatchesByPlace(p: Pat, v: V)
    ensures Matches(p, v) <==> forall at :: AskedAt(p, v, at)
  {
    if Matches(p, v) {
      forall at ensures AskedAt(p, v, at) { MatchAsks(p, v, at); }
    } else {
      var at := MissAsks(p, v);
    }
  }

  /** The variable stands in the pattern where the value has that part. */
  ghost predicate BindsAt(p: Pat, v: V, b: Bound, at: Place) {
    PatAt(p, at) == Some(Bind(b.decl)) && ValAt(v, at) == Some(b.v)
  }

  lemma {:induction false} BindsAny(ps: seq<Pat>, vs: seq<V>, b: Bound)
    requires |ps| == |vs| && AllMatch(ps, vs)
    ensures forall i :: 0 <= i < |ps| ==> Matches(ps[i], vs[i])
    ensures b in AllBinds(ps, vs) <==> exists i :: 0 <= i < |ps| && Matches(ps[i], vs[i]) && b in Binds(ps[i], vs[i])
  {
    MatchesAll(ps, vs);
    if ps != [] {
      BindsAny(ps[1..], vs[1..], b);
      if i :| 0 <= i < |ps[1..]| && Matches(ps[1..][i], vs[1..][i]) && b in Binds(ps[1..][i], vs[1..][i]) {
        assert b in Binds(ps[i + 1], vs[i + 1]);
      }
      if i :| 0 <= i < |ps| && Matches(ps[i], vs[i]) && b in Binds(ps[i], vs[i]) {
        if i > 0 { assert b in Binds(ps[1..][i - 1], vs[1..][i - 1]); }
      }
    }
  }

  lemma {:induction false} BinderFound(p: Pat, v: V, b: Bound) returns (at: Place)
    requires Matches(p, v) && b in Binds(p, v)
    ensures BindsAt(p, v, b, at)
    decreases p
  {
    at := [];
    if p.Con? {
      BindsAny(p.args, v.args, b);
      var i :| 0 <= i < |p.args| && b in Binds(p.args[i], v.args[i]);
      var rest := BinderFound(p.args[i], v.args[i], b);
      at := [i] + rest;
      assert at[1..] == rest;
    }
  }

  lemma {:induction false} FoundBinder(p: Pat, v: V, b: Bound, at: Place)
    requires Matches(p, v) && BindsAt(p, v, b, at)
    ensures b in Binds(p, v)
    decreases |at|
  {
    if at != [] {
      BindsAny(p.args, v.args, b);
      FoundBinder(p.args[at[0]], v.args[at[0]], b, at[1..]);
    }
  }

  /** It binds each of its variables to the part of the value that stands in the variable's place. */
  lemma BindsByPlace(p: Pat, v: V, b: Bound)
    requires Matches(p, v)
    ensures b in Binds(p, v) <==> exists at :: BindsAt(p, v, b, at)
  {
    if b in Binds(p, v) { var at := BinderFound(p, v, b); }
    if at :| BindsAt(p, v, b, at) { FoundBinder(p, v, b, at); }
  }
}
