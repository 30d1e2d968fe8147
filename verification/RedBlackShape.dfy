/** The values a red-black tree stands for: its shape, the map it represents, and the
    red-black rules. Nothing here touches the heap. A shape names the node that holds
    each of its entries, so that one shape describes one linked structure. */
module RedBlackShape {

  datatype Color = Red | Black

  type Entries = seq<(int, int)>

  datatype Shape<R> = Empty | Branch(node: R, key: int, value: int, color: Color, left: Shape<R>, right: Shape<R>)

  /** A path from a subtree up to the root: the subtree is the left or the right child of
      `node`, and `other` is its sibling. */
  datatype Path<R> =
    | Top
    | Step(node: R, key: int, value: int, color: Color, holeIsLeft: bool, other: Shape<R>, up: Path<R>)

  function Plug<R>(path: Path<R>, t: Shape<R>): Shape<R>
    decreases path
  {
    if path.Top? then t else Plug(path.up, Joined(path, t))
  }

  /** The subtree one step higher. */
  function Joined<R>(path: Path<R>, t: Shape<R>): Shape<R>
    requires path.Step?
  {
    if path.holeIsLeft then Branch(path.node, path.key, path.value, path.color, t, path.other)
    else Branch(path.node, path.key, path.value, path.color, path.other, t)
  }

  function Depth<R>(path: Path<R>): nat {
    if path.Top? then 0 else 1 + Depth(path.up)
  }

  // ---------- the map a shape represents ----------

  function InOrder<R>(t: Shape<R>): Entries {
    match t
    case Empty => []
    case Branch(_, k, v, _, l, r) => InOrder(l) + [(k, v)] + InOrder(r)
  }

  /** The entries that precede, and that follow, the subtree at the end of `path`. */
  function Before<R>(path: Path<R>): Entries {
    match path
    case Top => []
    case Step(_, k, v, _, holeIsLeft, other, up) =>
      if holeIsLeft then Before(up) else Before(up) + InOrder(other) + [(k, v)]
  }

  function After<R>(path: Path<R>): Entries {
    match path
    case Top => []
    case Step(_, k, v, _, holeIsLeft, other, up) =>
      if holeIsLeft then [(k, v)] + InOrder(other) + After(up) else After(up)
  }

  lemma Reassociate(a: Entries, b: Entries, e: (int, int), c: Entries, d: Entries)
    ensures a + (b + [e] + c) + d == a + b + ([e] + c + d)
    ensures a + (b + [e] + c) + d == (a + b + [e]) + c + d
  {
  }

  /** Every entry of the tree, in order. */
  function Entire<R>(path: Path<R>, t: Shape<R>): Entries {
    Before(path) + InOrder(t) + After(path)
  }

  lemma EntireJoined<R>(path: Path<R>, t: Shape<R>)
    requires path.Step?
    ensures Entire(path.up, Joined(path, t)) == Entire(path, t)
  {
    var e := (path.key, path.value);
    if path.holeIsLeft { Reassociate(Before(path.up), InOrder(t), e, InOrder(path.other), After(path.up)); }
    else { Reassociate(Before(path.up), InOrder(path.other), e, InOrder(t), After(path.up)); }
  }

  lemma {:induction false} PlugInOrder<R>(path: Path<R>, t: Shape<R>)
    ensures InOrder(Plug(path, t)) == Entire(path, t)
    decreases path
  {
    if path.Step? {
      EntireJoined(path, t);
      PlugInOrder(path.up, Joined(path, t));
    }
  }

  ghost predicate Ascending(es: Entries) {
    forall i, j :: 0 <= i < j < |es| ==> es[i].0 < es[j].0
  }

  function ToMap(es: Entries): (m: map<int, int>)
    ensures forall k :: k in m <==> exists i :: 0 <= i < |es| && es[i].0 == k
  {
    if es == [] then map[] else
      var rest := ToMap(es[..|es|-1]);
      assert es == es[..|es|-1] + [es[|es|-1]];
      rest[es[|es|-1].0 := es[|es|-1].1]
  }

  lemma {:induction false} ToMapAt(es: Entries, i: nat)
    requires Ascending(es) && i < |es|
    ensures es[i].0 in ToMap(es) && ToMap(es)[es[i].0] == es[i].1
  {
    if i < |es| - 1 {
      ToMapAt(es[..|es|-1], i);
    }
  }

  lemma {:induction false} ToMapOf(es: Entries, x: int)
    requires Ascending(es) && x in ToMap(es)
    ensures (x, ToMap(es)[x]) in es
  {
    if x != es[|es|-1].0 { ToMapOf(es[..|es|-1], x); }
  }

  /** A key new to an ascending sequence, put between the smaller and the larger keys. */
  lemma AscendingInsert(a: Entries, k: int, v: int, b: Entries)
    requires Ascending(a + b)
    requires forall e <- a :: e.0 < k
    requires forall e <- b :: k < e.0
    ensures Ascending(a + [(k, v)] + b)
  {
    var es, was := a + [(k, v)] + b, a + b;
    forall i, j | 0 <= i < j < |es| ensures es[i].0 < es[j].0 {
      if i == |a| { assert es[j] in b; }
      else if j == |a| { assert es[i] in a; }
      else {
        assert es[i] == was[if i < |a| then i else i - 1];
        assert es[j] == was[if j < |a| then j else j - 1];
      }
    }
  }

  lemma ToMapInsert(a: Entries, k: int, v: int, b: Entries)
    requires Ascending(a + b)
    requires forall e <- a :: e.0 < k
    requires forall e <- b :: k < e.0
    ensures Ascending(a + [(k, v)] + b)
    ensures ToMap(a + [(k, v)] + b) == ToMap(a + b)[k := v]
  {
    AscendingInsert(a, k, v, b);
    SameEntries(a + [(k, v)] + b, a + b, k, v);
  }

  /** Ascending sequences with the same members represent the same map. */
  lemma SameEntries(es: Entries, was: Entries, k: int, v: int)
    requires Ascending(es) && Ascending(was)
    requires forall e <- was :: e.0 != k
    requires forall e :: e in es <==> e == (k, v) || e in was
    ensures ToMap(es) == ToMap(was)[k := v]
  {
    var m, n := ToMap(es), ToMap(was)[k := v];
    forall x | x in m ensures x in n && m[x] == n[x] {
      ToMapOf(es, x);
      if (x, m[x]) in was { MemberInMap(was, (x, m[x])); }
    }
    forall x | x in n ensures x in m {
      if x in ToMap(was) { ToMapOf(was, x); MemberInMap(es, (x, ToMap(was)[x])); }
      else { MemberInMap(es, (k, v)); }
    }
    assert m.Keys == n.Keys;
  }

  lemma MemberInMap(es: Entries, e: (int, int))
    requires Ascending(es) && e in es
    ensures e.0 in ToMap(es) && ToMap(es)[e.0] == e.1
  {
    var i :| 0 <= i < |es| && es[i] == e;
    ToMapAt(es, i);
  }

  /** In an ascending sequence the keys left of an entry are smaller, those right of it larger. */
  lemma Around(a: Entries, e: (int, int), b: Entries)
    requires Ascending(a + [e] + b)
    ensures forall x <- a :: x.0 < e.0
    ensures forall x <- b :: e.0 < x.0
    ensures Ascending(a + b)
  {
    var es, less := a + [e] + b, a + b;
    assert es[|a|] == e;
    forall x | x in a ensures x.0 < e.0 {
      var i :| 0 <= i < |a| && a[i] == x;
      assert es[i] == x;
    }
    forall x | x in b ensures e.0 < x.0 {
      var i :| 0 <= i < |b| && b[i] == x;
      assert es[|a| + 1 + i] == x;
    }
    forall i, j | 0 <= i < j < |less| ensures less[i].0 < less[j].0 {
      assert less[i] == es[if i < |a| then i else i + 1];
      assert less[j] == es[if j < |a| then j else j + 1];
    }
  }

  lemma ToMapReplace(a: Entries, k: int, was: int, v: int, b: Entries)
    requires Ascending(a + [(k, was)] + b)
    ensures Ascending(a + [(k, v)] + b)
    ensures ToMap(a + [(k, v)] + b) == ToMap(a + [(k, was)] + b)[k := v]
  {
    Around(a, (k, was), b);
    ToMapInsert(a, k, v, b);
    ToMapInsert(a, k, was, b);
  }

  lemma {:induction false} ToMapSize(es: Entries)
    requires Ascending(es)
    ensures |ToMap(es)| == |es|
  {
    if es != [] {
      var init, last := es[..|es|-1], es[|es|-1];
      ToMapSize(init);
      if last.0 in ToMap(init) { ToMapOf(init, last.0); }
    }
  }

  /** What a series of insertions leaves: the value written last for each key. */
  function LastWrites(writes: Entries): map<int, int> {
    if writes == [] then map[] else
      var last := writes[|writes| - 1];
      LastWrites(writes[..|writes| - 1])[last.0 := last.1]
  }

  lemma {:induction false} LastWriteWins(writes: Entries, i: nat)
    requires i < |writes|
    requires forall j :: i < j < |writes| ==> writes[j].0 != writes[i].0
    ensures writes[i].0 in LastWrites(writes) && LastWrites(writes)[writes[i].0] == writes[i].1
  {
    if i < |writes| - 1 { LastWriteWins(writes[..|writes| - 1], i); }
  }

  lemma {:induction false} OnlyWrittenKeys(writes: Entries, k: int)
    requires k in LastWrites(writes)
    ensures exists i :: 0 <= i < |writes| && writes[i].0 == k
  {
    var last := |writes| - 1;
    if writes[last].0 != k {
      OnlyWrittenKeys(writes[..last], k);
      var i :| 0 <= i < last && writes[..last][i].0 == k;
      assert writes[i].0 == k;
    }
  }

  // ---------- the red-black rules ----------

  predicate IsBlack<R>(t: Shape<R>) {
    t.Branch? ==> t.color == Black
  }

  function BlackHeight<R>(t: Shape<R>): nat {
    if t.Empty? then 0 else BlackHeight(t.left) + if t.color == Black then 1 else 0
  }

  /** No red node has a red child, and every way down crosses the same number of black nodes. */
  predicate Balanced<R>(t: Shape<R>) {
    t.Branch? ==>
      && Balanced(t.left) && Balanced(t.right)
      && BlackHeight(t.left) == BlackHeight(t.right)
      && (t.color == Red ==> IsBlack(t.left) && IsBlack(t.right))
  }

  /** What `path` needs of the subtree put at its end: once that subtree is balanced with
      black height `h`, and black if its parent is red, the whole tree obeys the rules.
      A red node is never the root. */
  predicate PathBalanced<R>(path: Path<R>, h: nat) {
    path.Step? ==>
      && Balanced(path.other) && BlackHeight(path.other) == h
      && (path.color == Red ==> IsBlack(path.other) && path.up.Step? && path.up.color == Black)
      && PathBalanced(path.up, if path.color == Black then h + 1 else h)
  }

  lemma {:induction false} PlugBalanced<R>(path: Path<R>, t: Shape<R>)
    requires Balanced(t) && PathBalanced(path, BlackHeight(t))
    requires path.Step? && path.color == Red ==> IsBlack(t)
    ensures Balanced(Plug(path, t))
    ensures path.Step? ==> IsBlack(Plug(path, t)) && Plug(path, t).Branch?
    ensures path.Top? ==> Plug(path, t) == t
    decreases path
  {
    if path.Step? { PlugBalanced(path.up, Joined(path, t)); }
  }

  /** What every tree the insertion builds satisfies. */
  ghost predicate IsRedBlackMap<R>(t: Shape<R>) {
    Ascending(InOrder(t)) && Balanced(t) && IsBlack(t)
  }

  // ---------- repairing a red node under a red parent ----------

  function RotatedLeft<R>(t: Shape<R>): Shape<R>
    requires t.Branch? && t.right.Branch?
  {
    t.right.(left := t.(right := t.right.left))
  }

  function RotatedRight<R>(t: Shape<R>): Shape<R>
    requires t.Branch? && t.left.Branch?
  {
    t.left.(right := t.(left := t.left.right))
  }

  function Painted<R>(t: Shape<R>, c: Color): Shape<R>
    requires t.Branch?
  {
    t.(color := c)
  }

  lemma RotationKeepsOrder<R>(t: Shape<R>)
    requires t.Branch?
    ensures t.left.Branch? ==> InOrder(RotatedRight(t)) == InOrder(t)
    ensures t.right.Branch? ==> InOrder(RotatedLeft(t)) == InOrder(t)
  {
    if t.left.Branch? {
      Regroup(InOrder(t.left.left), (t.left.key, t.left.value), InOrder(t.left.right), (t.key, t.value), InOrder(t.right));
      assert InOrder(RotatedRight(t).right) == InOrder(t.left.right) + [(t.key, t.value)] + InOrder(t.right);
    }
    if t.right.Branch? {
      Regroup(InOrder(t.left), (t.key, t.value), InOrder(t.right.left), (t.right.key, t.right.value), InOrder(t.right.right));
      assert InOrder(RotatedLeft(t).left) == InOrder(t.left) + [(t.key, t.value)] + InOrder(t.right.left);
    }
  }

  lemma Regroup(a: Entries, e: (int, int), b: Entries, f: (int, int), c: Entries)
    ensures (a + [e] + b) + [f] + c == a + [e] + (b + [f] + c)
  {
  }

  /** The state of the repair: the tree obeys the rules, except that the red node on top of
      `t` may hang under a red parent, or be the root. */
  ghost predicate RedFocus<R>(path: Path<R>, t: Shape<R>) {
    t.Branch? && t.color == Red && Balanced(t) && PathBalanced(path, BlackHeight(t))
  }

  /** The parent of the focus is red too. */
  ghost predicate Clash<R>(path: Path<R>, t: Shape<R>) {
    RedFocus(path, t) && path.Step? && path.color == Red
  }

  /** Grandparent, with the parent and the uncle below it. */
  function Grand<R>(path: Path<R>, t: Shape<R>): Shape<R>
    requires path.Step? && path.up.Step?
  {
    Joined(path.up, Joined(path, t))
  }

  function Recolored<R>(g: Shape<R>): Shape<R>
    requires g.Branch? && g.left.Branch? && g.right.Branch?
  {
    g.(color := Red, left := Painted(g.left, Black), right := Painted(g.right, Black))
  }

  /** A red uncle: the blackness of the grandparent moves down one level. */
  lemma RecolorKeeps<R>(path: Path<R>, t: Shape<R>)
    requires Clash(path, t) && path.up.other.Branch? && path.up.other.color == Red
    ensures RedFocus(path.up.up, Recolored(Grand(path, t)))
    ensures Entire(path.up.up, Recolored(Grand(path, t))) == Entire(path, t)
  {
    EntireJoined(path, t);
    EntireJoined(path.up, Joined(path, t));
    assert PathBalanced(path.up, BlackHeight(t));
    assert PathBalanced(path.up.up, BlackHeight(t) + 1);
    var g, g' := Grand(path, t), Recolored(Grand(path, t));
    assert Balanced(g'.left) && Balanced(g'.right);
    assert InOrder(g'.left) == InOrder(g.left) && InOrder(g'.right) == InOrder(g.right);
  }

  /** The focus is the inner grandchild: a rotation at the parent makes the parent the focus,
      on the outer side. */
  function OuterPath<R>(path: Path<R>, t: Shape<R>): Path<R>
    requires path.Step? && t.Branch?
  {
    Step(t.node, t.key, t.value, t.color, !path.holeIsLeft, if path.holeIsLeft then t.left else t.right, path.up)
  }

  function OuterFocus<R>(path: Path<R>, t: Shape<R>): Shape<R>
    requires path.Step? && t.Branch?
  {
    Joined(path, if path.holeIsLeft then t.right else t.left)
  }

  lemma InnerToOuter<R>(path: Path<R>, t: Shape<R>)
    requires Clash(path, t)
    ensures Clash(OuterPath(path, t), OuterFocus(path, t))
    ensures Joined(OuterPath(path, t), OuterFocus(path, t))
      == if path.holeIsLeft then RotatedRight(Joined(path, t)) else RotatedLeft(Joined(path, t))
    ensures Entire(OuterPath(path, t), OuterFocus(path, t)) == Entire(path, t)
  {
    EntireJoined(path, t);
    EntireJoined(OuterPath(path, t), OuterFocus(path, t));
    RotationKeepsOrder(Joined(path, t));
  }

  /** The grandparent with its colour and the parent's exchanged. */
  function Repainted<R>(path: Path<R>, t: Shape<R>): Shape<R>
    requires path.Step? && path.up.Step?
  {
    Joined(path.up.(color := Red), Joined(path.(color := Black), t))
  }

  /** A black uncle and an outer focus: after the colours are exchanged and the grandparent
      rotated down, the focus hangs under the now black parent. */
  function RaisedPath<R>(path: Path<R>): Path<R>
    requires path.Step? && path.up.Step?
  {
    var g := Joined(path.up.(color := Red), path.other);
    path.(color := Black, other := g, up := path.up.up)
  }

  lemma RaisedFocus<R>(path: Path<R>, t: Shape<R>)
    requires Clash(path, t) && IsBlack(path.up.other)
    ensures RedFocus(RaisedPath(path), t)
  {
    assert PathBalanced(path.up, BlackHeight(t));
    assert PathBalanced(path.up.up, BlackHeight(t) + 1);
    var g := RaisedPath(path).other;
    assert Balanced(g) && BlackHeight(g) == BlackHeight(t);
  }

  lemma RotationKeeps<R>(path: Path<R>, t: Shape<R>)
    requires Clash(path, t) && IsBlack(path.up.other) && path.holeIsLeft == path.up.holeIsLeft
    ensures RedFocus(RaisedPath(path), t)
    ensures Joined(RaisedPath(path), t)
      == if path.holeIsLeft then RotatedRight(Repainted(path, t)) else RotatedLeft(Repainted(path, t))
    ensures Entire(RaisedPath(path), t) == Entire(path, t)
  {
    RaisedFocus(path, t);
    EntireJoined(path, t);
    EntireJoined(path.up, Joined(path, t));
    EntireJoined(RaisedPath(path), t);
    RotationKeepsOrder(Grand(path, t));
    RotationKeepsOrder(Repainted(path, t));
    assert InOrder(Joined(path.(color := Black), t)) == InOrder(Joined(path, t));
    assert InOrder(Repainted(path, t)) == InOrder(Grand(path, t));
  }

  /** Nothing clashes any more: painting the root black completes the repair. */
  lemma {:induction false} RootBlack<R>(path: Path<R>, t: Shape<R>)
    requires RedFocus(path, t) && !Clash(path, t) && Ascending(Entire(path, t))
    ensures Plug(path, t).Branch?
    ensures path.Step? ==> Plug(path, t).color == Black
    ensures IsRedBlackMap(Painted(Plug(path, t), Black))
    ensures InOrder(Painted(Plug(path, t), Black)) == Entire(path, t)
  {
    PlugBalanced(path, t);
    PlugInOrder(path, t);
  }

  // ---------- looking for a key ----------

  /** `t` is where `k` is or belongs: every key before it is smaller, every key after it larger. */
  ghost predicate Narrowed<R>(path: Path<R>, t: Shape<R>, k: int) {
    && (forall e <- Before(path) :: e.0 < k) && (forall e <- After(path) :: k < e.0)
    && Balanced(t) && PathBalanced(path, BlackHeight(t))
    && (path.Step? && path.color == Red ==> IsBlack(t))
    && (path.Top? ==> IsBlack(t))
  }

  function Child<R>(t: Shape<R>, left: bool): Shape<R>
    requires t.Branch?
  {
    if left then t.left else t.right
  }

  function Below<R>(path: Path<R>, t: Shape<R>, left: bool): Path<R>
    requires t.Branch?
  {
    Step(t.node, t.key, t.value, t.color, left, Child(t, !left), path)
  }

  lemma Narrow<R>(path: Path<R>, t: Shape<R>, k: int)
    requires Narrowed(path, t, k) && t.Branch? && k != t.key && Ascending(Entire(path, t))
    ensures Narrowed(Below(path, t, k < t.key), Child(t, k < t.key), k)
    ensures Entire(Below(path, t, k < t.key), Child(t, k < t.key)) == Entire(path, t)
    ensures Joined(Below(path, t, k < t.key), Child(t, k < t.key)) == t
  {
    EntireJoined(Below(path, t, k < t.key), Child(t, k < t.key));
    KeysAround(path, t);
    NarrowKeys(path, t, k);
  }

  lemma KeysAround<R>(path: Path<R>, t: Shape<R>)
    requires t.Branch? && Ascending(Entire(path, t))
    ensures (forall e <- InOrder(t.left) :: e.0 < t.key) && (forall e <- InOrder(t.right) :: t.key < e.0)
  {
    var e := (t.key, t.value);
    var before, after := Before(path) + InOrder(t.left), InOrder(t.right) + After(path);
    assert Entire(path, t) == before + [e] + after;
    Around(before, e, after);
    forall x | x in InOrder(t.left) ensures x.0 < t.key { assert x in before; }
    forall x | x in InOrder(t.right) ensures t.key < x.0 { assert x in after; }
  }

  /** The node and the half of its entries that is passed by are on the other side of `k`. */
  lemma NarrowKeys<R>(path: Path<R>, t: Shape<R>, k: int)
    requires t.Branch? && k != t.key
    requires (forall e <- Before(path) :: e.0 < k) && (forall e <- After(path) :: k < e.0)
    requires (forall e <- InOrder(t.left) :: e.0 < t.key) && (forall e <- InOrder(t.right) :: t.key < e.0)
    ensures var p := Below(path, t, k < t.key); (forall e <- Before(p) :: e.0 < k) && (forall e <- After(p) :: k < e.0)
  {
    var p := Below(path, t, k < t.key);
    forall e | e in Before(p) ensures e.0 < k {
      if k > t.key { assert Before(p) == Before(path) + InOrder(t.left) + [(t.key, t.value)]; }
    }
    forall e | e in After(p) ensures k < e.0 {
      if k < t.key { assert After(p) == [(t.key, t.value)] + InOrder(t.right) + After(path); }
    }
  }

  /** The key is found: its value is replaced. */
  lemma Replace<R>(path: Path<R>, t: Shape<R>, v: int)
    requires t.Branch? && Narrowed(path, t, t.key) && Ascending(Entire(path, t))
    ensures IsRedBlackMap(Plug(path, t.(value := v)))
    ensures ToMap(InOrder(Plug(path, t.(value := v)))) == ToMap(Entire(path, t))[t.key := v]
  {
    var t' := t.(value := v);
    var before, after := Before(path) + InOrder(t.left), InOrder(t.right) + After(path);
    assert Entire(path, t) == before + [(t.key, t.value)] + after;
    assert Entire(path, t') == before + [(t.key, v)] + after;
    ToMapReplace(before, t.key, t.value, v, after);
    PlugInOrder(path, t');
    PlugBalanced(path, t');
  }

  /** The key is new: a red leaf takes the place of the empty subtree reached. */
  lemma Grow<R>(path: Path<R>, z: R, k: int, v: int)
    requires Narrowed(path, Empty, k) && Ascending(Entire(path, Empty))
    ensures RedFocus(path, Branch(z, k, v, Red, Empty, Empty))
    ensures Ascending(Entire(path, Branch(z, k, v, Red, Empty, Empty)))
    ensures ToMap(Entire(path, Branch(z, k, v, Red, Empty, Empty))) == ToMap(Entire(path, Empty))[k := v]
    ensures path.Step? ==> (path.holeIsLeft <==> k < path.key) && k != path.key
  {
    assert Entire(path, Empty) == Before(path) + After(path);
    var leaf := Branch(z, k, v, Red, Empty, Empty);
    assert InOrder(leaf) == [(k, v)];
    assert Entire(path, leaf) == Before(path) + [(k, v)] + After(path);
    ToMapInsert(Before(path), k, v, After(path));
    if path.Step? {
      if path.holeIsLeft { assert (path.key, path.value) == After(path)[0]; }
      else { assert (path.key, path.value) == Before(path)[|Before(path)| - 1]; }
    }
  }

  // ---------- height ----------

  function Height<R>(t: Shape<R>): nat {
    if t.Empty? then 0 else 1 + if Height(t.left) > Height(t.right) then Height(t.left) else Height(t.right)
  }

  /** A way down from the root, right where it says so, past one node with each step. */
  predicate WayDown<R>(t: Shape<R>, way: seq<bool>) {
    way == [] || (t.Branch? && WayDown(if way[0] then t.right else t.left, way[1..]))
  }

  /** The height is the length of the longest way down. */
  lemma {:induction false} LongestWay<R>(t: Shape<R>) returns (way: seq<bool>)
    ensures WayDown(t, way) && |way| == Height(t)
    ensures forall other :: WayDown(t, other) ==> |other| <= Height(t)
  {
    way := [];
    if t.Branch? {
      var l := LongestWay(t.left);
      var r := LongestWay(t.right);
      var right := Height(t.right) >= Height(t.left);
      var rest := if right then r else l;
      way := [right] + rest;
      assert way[1..] == rest;
      forall other | WayDown(t, other) ensures |other| <= Height(t) {
        if other != [] { assert WayDown(if other[0] then t.right else t.left, other[1..]); }
      }
    }
  }

  function Pow2(n: nat): nat {
    if n == 0 then 1 else 2 * Pow2(n - 1)
  }

  lemma {:induction false} Pow2Adds(m: nat, n: nat)
    ensures Pow2(m + n) == Pow2(m) * Pow2(n)
  {
    if m > 0 {
      Pow2Adds(m - 1, n);
      assert Pow2(m) * Pow2(n) == 2 * (Pow2(m - 1) * Pow2(n));
    }
  }

  lemma {:induction false} Pow2Monotone(m: nat, n: nat)
    requires m <= n
    ensures Pow2(m) <= Pow2(n)
    decreases n
  {
    if m < n { Pow2Monotone(m, n - 1); }
  }

  lemma {:induction false} BlackHeightBounds<R>(t: Shape<R>)
    requires Balanced(t)
    ensures Height(t) <= 2 * BlackHeight(t) + if IsBlack(t) then 0 else 1
    ensures Pow2(BlackHeight(t)) <= |InOrder(t)| + 1
  {
    if t.Branch? {
      BlackHeightBounds(t.left);
      BlackHeightBounds(t.right);
    }
  }

  /** height <= 2 * log2(size + 1), stated without logarithms. */
  lemma HeightBound<R>(t: Shape<R>)
    requires IsRedBlackMap(t)
    ensures Pow2(Height(t)) <= (|InOrder(t)| + 1) * (|InOrder(t)| + 1)
  {
    BlackHeightBounds(t);
    PowBound(Height(t), BlackHeight(t), |InOrder(t)| + 1);
  }

  lemma PowBound(h: nat, bh: nat, n: nat)
    requires h <= 2 * bh && Pow2(bh) <= n
    ensures Pow2(h) <= n * n
  {
    Pow2Monotone(h, bh + bh);
    Pow2Adds(bh, bh);
    SquareMonotone(Pow2(bh), n);
  }

  lemma SquareMonotone(p: nat, n: nat)
    requires p <= n
    ensures p * p <= n * n
  {
    assert n * n == p * p + (n - p) * (n + p);
  }
}
