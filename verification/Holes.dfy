/** Building front to back through a hole: the loop that fills the tail of the last cell with
    the next one makes what direct recursion makes. */
module Holes {
  import opened RcHeap
  import opened Values

  /** Where the next part goes. There is no hole before the first cell. */
  datatype Hole = NoHole | At(cell: Ref, slot: nat)

  datatype Context = Context(res: Word, hole: Hole)

  /** `t` with the part at the end of `path` replaced by `v`. */
  function Fill(t: Val, path: seq<nat>, v: Val): Val {
    if path == [] then v
    else if !t.Node? || path[0] >= |t.children| then t
    else Node(t.kind, t.children[path[0] := Fill(t.children[path[0]], path[1..], v)])
  }

  /** Filling a hole with something that has a hole itself. */
  lemma {:induction false} FillNested(t: Val, path: seq<nat>, u: Val, i: nat, v: Val)
    requires u.Node? && i < |u.children|
    ensures Fill(Fill(t, path, u), path + [i], v) == Fill(t, path, Fill(u, [i], v))
  {
    if path != [] && t.Node? && path[0] < |t.children| {
      FillNested(t.children[path[0]], path[1..], u, i, v);
      assert (path + [i])[1..] == path[1..] + [i];
    } else if path == [] {
      assert [] + [i] == [i];
    }
  }

  // ---------- the cells under construction ----------

  /** `r` refers to `y` in slot `i`, and is the only one to do so. */
  lemma OneOwner(h: Heap, owned: multiset<Ref>, p: Ref, i: nat, r: Ref, j: nat, y: Ref)
    requires Counted(h, owned) && Count(h, y) == 1
    requires Live(h, p) && i < |h[p].slots| && h[p].slots[i] == Ptr(y)
    requires Live(h, r) && j < |h[r].slots| && h[r].slots[j] == Ptr(y)
    ensures p == r && i == j && y !in owned
  {
    assert Count(h, y) == Owners(h, owned, y);
    SlotOwns(h, p, i);
    if p != r {
      OutUpdate(h, r, Free, y);
      SlotOwns(h, r, j);
      SlotOwns(h[r := Free], p, i);
    } else if i != j {
      PtrsUpdate(h[p].slots, i, Null, y);
      PtrsUpdate(h[p].slots[i := Null], j, Null, y);
      OutUpdate(h, p, Free, y);
    }
  }

  predicate Link(h: Heap, c: Ref, i: nat, w: Word) {
    Live(h, c) && h[c].rc == 1 && !h[c].kind.SeqCell? && i < |h[c].slots| && h[c].slots[i] == w
  }

  /** A cell of the spine leads to the next one, and the last one to the hole. */
  predicate Joint(h: Heap, cs: seq<Ref>, ss: seq<nat>, k: int)
    requires 0 <= k < |cs| == |ss|
  {
    Link(h, cs[k], ss[k], if k + 1 < |cs| then Ptr(cs[k + 1]) else Null)
  }

  /** The cells from the root to the hole, each with one owner: the one before it. */
  ghost predicate Spine(h: Heap, owned: multiset<Ref>, cs: seq<Ref>, ss: seq<nat>) {
    && |cs| == |ss| > 0 && cs[0] in owned
    && forall k :: 0 <= k < |cs| ==> Joint(h, cs, ss, k)
  }

  /** Nothing outside refers into the spine, and inside there is just the one chain. */
  lemma {:induction false} Secluded(h: Heap, owned: multiset<Ref>, cs: seq<Ref>, ss: seq<nat>, r: Ref, j: nat, k: nat)
    requires Counted(h, owned) && Spine(h, owned, cs, ss)
    requires Live(h, r) && j < |h[r].slots| && k < |cs| && h[r].slots[j] == Ptr(cs[k])
    ensures k > 0 && r == cs[k - 1] && j == ss[k - 1]
  {
    assert Joint(h, cs, ss, k);
    if k == 0 {
      SlotOwns(h, r, j);
      OwnedLives(h, owned, cs[0]);
      assert false;
    } else {
      assert Joint(h, cs, ss, k - 1);
      OneOwner(h, owned, cs[k - 1], ss[k - 1], r, j, cs[k]);
    }
  }

  lemma {:induction false} Distinct(h: Heap, owned: multiset<Ref>, cs: seq<Ref>, ss: seq<nat>, i: nat, k: nat)
    requires Counted(h, owned) && Spine(h, owned, cs, ss) && i < k < |cs|
    ensures cs[i] != cs[k]
    decreases k
  {
    if cs[i] == cs[k] {
      assert Joint(h, cs, ss, k - 1);
      Secluded(h, owned, cs, ss, cs[k - 1], ss[k - 1], i);
      Distinct(h, owned, cs, ss, i - 1, k - 1);
    }
  }

  /** What does not lie on the spine cannot see a change at the hole. */
  lemma {:induction false} OutsideSame(h: Heap, owned: multiset<Ref>, cs: seq<Ref>, ss: seq<nat>, h': Heap, w: Word, v: Val)
    requires Counted(h, owned) && Spine(h, owned, cs, ss) && Means(h, w, v)
    requires w.Ptr? ==> w.ref !in cs
    requires forall r: Ref :: r !in cs ==> Agree(h, h', r)
    ensures Means(h', w, v)
    decreases v
  {
    if w.Ptr? { assert Agree(h, h', w.ref); }
    if w.Ptr? && v.Node? {
      forall i | 0 <= i < |v.children| ensures Means(h', h[w.ref].slots[i], v.children[i]) {
        var c := h[w.ref].slots[i];
        if c.Ptr? && c.ref in cs {
          var k :| 0 <= k < |cs| && cs[k] == c.ref;
          Secluded(h, owned, cs, ss, w.ref, i, k);
        }
        OutsideSame(h, owned, cs, ss, h', c, v.children[i]);
      }
    }
  }

  function Plugged(h: Heap, cell: Ref, slot: nat, w: Word): Heap
    requires Live(h, cell) && slot < |h[cell].slots|
  {
    h[cell := h[cell].(slots := h[cell].slots[slot := w])]
  }

  /** Plugging `w` into the hole replaces the part at the end of the path, and no more. */
  lemma {:induction false} PlugFills(h: Heap, owned: multiset<Ref>, cs: seq<Ref>, ss: seq<nat>, k: nat, t: Val, w: Word, v: Val)
    requires Counted(h, owned) && Spine(h, owned, cs, ss) && k < |cs|
    requires Link(h, cs[|cs| - 1], ss[|cs| - 1], Null)
    requires Means(h, Ptr(cs[k]), t) && Means(h, w, v) && (w.Ptr? ==> w.ref !in cs)
    ensures Means(Plugged(h, cs[|cs| - 1], ss[|cs| - 1], w), Ptr(cs[k]), Fill(t, ss[k..], v))
    decreases |cs| - k
  {
    var c, s, last := cs[k], ss[k], |cs| - 1;
    var h' := Plugged(h, cs[last], ss[last], w);
    assert Joint(h, cs, ss, k);
    assert ss[k..][0] == s && ss[k..][1..] == ss[k + 1..];
    var t' := Fill(t, ss[k..], v);
    assert t' == Node(t.kind, t.children[s := Fill(t.children[s], ss[k + 1..], v)]);
    if k < last { Distinct(h, owned, cs, ss, k, last); }
    forall i | 0 <= i < |t.children| ensures Means(h', h'[c].slots[i], t'.children[i]) {
      if i != s {
        OffPath(h, owned, cs, ss, k, i);
        OutsideSame(h, owned, cs, ss, h', h[c].slots[i], t.children[i]);
        assert h'[c].slots[i] == h[c].slots[i];
      } else if k < last {
        PlugFills(h, owned, cs, ss, k + 1, t.children[s], w, v);
        assert h'[c].slots[i] == Ptr(cs[k + 1]);
      } else {
        assert ss[k + 1..] == [];
        OutsideSame(h, owned, cs, ss, h', w, v);
      }
    }
  }

  lemma OffPath(h: Heap, owned: multiset<Ref>, cs: seq<Ref>, ss: seq<nat>, k: nat, i: nat)
    requires Counted(h, owned) && Spine(h, owned, cs, ss) && k < |cs|
    requires Joint(h, cs, ss, k)
    requires i < |h[cs[k]].slots| && i != ss[k]
    ensures h[cs[k]].slots[i].Ptr? ==> h[cs[k]].slots[i].ref !in cs
  {
    var w := h[cs[k]].slots[i];
    if w.Ptr? && w.ref in cs {
      var m :| 0 <= m < |cs| && cs[m] == w.ref;
      Secluded(h, owned, cs, ss, cs[k], i, m);
      if m - 1 < k { Distinct(h, owned, cs, ss, m - 1, k); }
      if k < m - 1 { Distinct(h, owned, cs, ss, k, m - 1); }
    }
  }

  // ---------- the loop's steps ----------

  /** The context built so far stands for `t` with a hole at the end of the path `ss`. */
  ghost predicate Stands(h: Heap, keep: multiset<Ref>, x: Context, cs: seq<Ref>, ss: seq<nat>, t: Val) {
    if x.hole.NoHole? then x.res == Null && cs == [] && ss == []
    else
      && |cs| == |ss| > 0 && x.res == Ptr(cs[0]) && x.hole == At(cs[|cs| - 1], ss[|cs| - 1])
      && Link(h, x.hole.cell, x.hole.slot, Null) && cs[0] !in keep && Spine(h, keep + multiset{cs[0]}, cs, ss) && Means(h, x.res, t)
  }

  /** What does not lie on the spine has the value it had. */
  ghost predicate Undisturbed(h: Heap, h': Heap, cs: seq<Ref>) {
    forall w: Word, v :: (w.Ptr? ==> w.ref !in cs) && Means(h, w, v) ==> Means(h', w, v)
  }

  /** What the frame refers to does not lie on the spine. */
  lemma KeptOffSpine(h: Heap, owned: multiset<Ref>, cs: seq<Ref>, ss: seq<nat>, x: Ref)
    requires Counted(h, owned) && Spine(h, owned, cs, ss) && x in owned && x in cs
    ensures x == cs[0] && owned[x] == 1
  {
    var k :| 0 <= k < |cs| && cs[k] == x;
    assert Joint(h, cs, ss, k);
    assert Count(h, x) == Owners(h, owned, x);
    if k > 0 {
      assert Joint(h, cs, ss, k - 1);
      OneOwner(h, owned, cs[k - 1], ss[k - 1], cs[k - 1], ss[k - 1], x);
    }
  }

  /** Plugs `child` into the hole; the first one becomes the root. */
  method Apply(rt: Runtime, x: Context, child: Word, ghost keep: multiset<Ref>,
      ghost cs: seq<Ref>, ghost ss: seq<nat>, ghost t: Val) returns (res: Word)
    requires rt.Valid() && rt.owned == keep + PtrOf(x.res) + PtrOf(child)
    requires Stands(rt.cells, keep + PtrOf(child), x, cs, ss, t)
    modifies rt
    ensures rt.Valid() && rt.owned == keep + PtrOf(res)
    ensures rt.cells == if cs == [] then old(rt.cells) else Plugged(old(rt.cells), x.hole.cell, x.hole.slot, child)
    ensures res == if cs == [] then child else x.res
    ensures forall v :: Means(old(rt.cells), child, v) ==> Means(rt.cells, res, Fill(t, ss, v))
    ensures Undisturbed(old(rt.cells), rt.cells, cs)
  {
    if x.hole.NoHole? { return child; }
    PlugKeeps(rt.cells, keep, cs, ss, t, child);
    res := x.res;
    var c := rt.cells[x.hole.cell];
    rt.Write(x.hole.cell, c.kind, c.slots[x.hole.slot := child], keep + PtrOf(res));
  }

  lemma PlugKeeps(h: Heap, keep: multiset<Ref>, cs: seq<Ref>, ss: seq<nat>, t: Val, w: Word)
    requires |cs| == |ss| > 0 && Counted(h, keep + multiset{cs[0]} + PtrOf(w))
    requires cs[0] !in keep + PtrOf(w) && Spine(h, keep + PtrOf(w) + multiset{cs[0]}, cs, ss) && Means(h, Ptr(cs[0]), t)
    ensures var c, s := cs[|cs| - 1], ss[|cs| - 1]; Link(h, c, s, Null)
    ensures keep + multiset{cs[0]} + PtrOf(w) + Ptrs(h[cs[|cs| - 1]].slots)
      == (keep + multiset{cs[0]}) + Ptrs(h[cs[|cs| - 1]].slots[ss[|cs| - 1] := w])
    ensures forall v :: Means(h, w, v) ==> Means(Plugged(h, cs[|cs| - 1], ss[|cs| - 1], w), Ptr(cs[0]), Fill(t, ss, v))
    ensures Undisturbed(h, Plugged(h, cs[|cs| - 1], ss[|cs| - 1], w), cs)
  {
    var last := |cs| - 1;
    var owned := keep + PtrOf(w) + multiset{cs[0]};
    assert owned == keep + multiset{cs[0]} + PtrOf(w);
    assert Joint(h, cs, ss, last);
    PlugBooks(keep + multiset{cs[0]}, h[cs[last]].slots, ss[last], w);
    if w.Ptr? && w.ref in cs { KeptOffSpine(h, owned, cs, ss, w.ref); }
    assert ss[0..] == ss;
    forall v | Means(h, w, v) ensures Means(Plugged(h, cs[last], ss[last], w), Ptr(cs[0]), Fill(t, ss, v)) {
      PlugFills(h, owned, cs, ss, 0, t, w, v);
    }
    forall u: Word, v | (u.Ptr? ==> u.ref !in cs) && Means(h, u, v) ensures Means(Plugged(h, cs[last], ss[last], w), u, v) {
      OutsideSame(h, owned, cs, ss, Plugged(h, cs[last], ss[last], w), u, v);
    }
  }

  lemma PlugBooks(keep: multiset<Ref>, slots: seq<Word>, i: nat, w: Word)
    requires i < |slots| && slots[i] == Null
    ensures keep + PtrOf(w) + Ptrs(slots) == keep + Ptrs(slots[i := w])
  {
    PtrsSwap(slots, i, w);
    assert Ptrs(slots[i := w]) == Ptrs(slots[i := w]) + multiset{};
  }

  /** Makes the next cell, with its hole at slot `i`, and puts it in the hole of the last one. */
  method Extend(rt: Runtime, x: Context, kind: Kind, slots: seq<Word>, i: nat, ghost keep: multiset<Ref>,
      ghost cs: seq<Ref>, ghost ss: seq<nat>, ghost t: Val, ghost vs: seq<Val>) returns (x': Context)
    requires rt.Valid() && rt.owned == keep + PtrOf(x.res) + Ptrs(slots)
    requires Stands(rt.cells, keep + Ptrs(slots), x, cs, ss, t)
    requires !kind.SeqCell? && i < |slots| && slots[i] == Null && AllMean(rt.cells, slots, vs)
    modifies rt
    ensures rt.Valid() && rt.owned == keep + PtrOf(x'.res)
    ensures Stands(rt.cells, keep, x', cs + [|old(rt.cells)|], ss + [i], Fill(t, ss, Node(kind, vs)))
    ensures Undisturbed(old(rt.cells), rt.cells, cs)
  {
    ghost var h := rt.cells;
    var node := rt.Alloc(kind, slots, keep + PtrOf(x.res));
    ghost var h1 := rt.cells;
    AppendStands(h, keep, x, cs, ss, t, Cell(1, kind, slots), vs);
    var res := Apply(rt, x, Ptr(node), keep, cs, ss, t);
    x' := Context(res, At(node, i));
    assert Means(h1, Ptr(node), Node(kind, vs));
    Longer(h1, keep, x, cs, ss, t, node, i, rt.cells);
  }

  lemma AppendUndisturbed(h: Heap, owned: multiset<Ref>, c: Cell, cs: seq<Ref>)
    requires Counted(h, owned)
    ensures Undisturbed(h, h + [c], cs)
  {
    forall w: Word, v | Means(h, w, v) ensures Means(h + [c], w, v) { AppendMean(h, owned, c, w, v); }
  }

  lemma AppendNode(h: Heap, owned: multiset<Ref>, c: Cell, vs: seq<Val>)
    requires c.Cell? && !c.kind.SeqCell? && Counted(h, owned) && AllMean(h, c.slots, vs)
    ensures Means(h + [c], Ptr(|h|), Node(c.kind, vs))
  {
    forall i | 0 <= i < |vs| ensures Means(h + [c], c.slots[i], vs[i]) { AppendMean(h, owned, c, c.slots[i], vs[i]); }
  }

  lemma AppendSpine(h: Heap, owned: multiset<Ref>, owned': multiset<Ref>, c: Cell, cs: seq<Ref>, ss: seq<nat>)
    requires Spine(h, owned, cs, ss) && cs[0] in owned'
    ensures Spine(h + [c], owned', cs, ss)
  {
    forall k | 0 <= k < |cs| ensures Joint(h + [c], cs, ss, k) { assert Joint(h, cs, ss, k); }
  }

  lemma AppendStands(h: Heap, keep: multiset<Ref>, x: Context, cs: seq<Ref>, ss: seq<nat>, t: Val, c: Cell, vs: seq<Val>)
    requires c.Cell? && !c.kind.SeqCell? && Counted(h, keep + PtrOf(x.res) + Ptrs(c.slots)) && AllMean(h, c.slots, vs)
    requires Stands(h, keep + Ptrs(c.slots), x, cs, ss, t)
    ensures Stands(h + [c], keep + multiset{|h|}, x, cs, ss, t)
    ensures Means(h + [c], Ptr(|h|), Node(c.kind, vs))
    ensures Undisturbed(h, h + [c], cs)
  {
    var owned := keep + PtrOf(x.res) + Ptrs(c.slots);
    AppendUndisturbed(h, owned, c, cs);
    AppendNode(h, owned, c, vs);
    if cs != [] {
      assert Joint(h, cs, ss, 0);
      AppendSpine(h, keep + Ptrs(c.slots) + multiset{cs[0]}, keep + multiset{|h|} + multiset{cs[0]}, c, cs, ss);
      AppendMean(h, owned, c, x.res, t);
    }
  }

  /** The new cell continues the spine. */
  lemma Longer(h: Heap, keep: multiset<Ref>, x: Context, cs: seq<Ref>, ss: seq<nat>, t: Val, node: Ref, i: nat, h': Heap)
    requires Counted(h, keep + PtrOf(x.res) + multiset{node}) && Stands(h, keep + multiset{node}, x, cs, ss, t)
    requires Link(h, node, i, Null)
    requires h' == if cs == [] then h else Plugged(h, x.hole.cell, x.hole.slot, Ptr(node))
    ensures |cs| == |ss| && Link(h', node, i, Null) && node !in keep && (cs == [] || cs[0] !in keep)
    ensures Spine(h', keep + multiset{if cs == [] then node else cs[0]}, cs + [node], ss + [i])
  {
    var cs', ss' := cs + [node], ss + [i];
    var owned := keep + multiset{node} + PtrOf(x.res);
    assert owned == keep + PtrOf(x.res) + multiset{node};
    assert Count(h, node) == Owners(h, owned, node);
    if cs != [] && node in cs { KeptOffSpine(h, owned, cs, ss, node); }
    forall k | 0 <= k < |cs'| ensures Joint(h', cs', ss', k) {
      if k < |cs| { assert Joint(h, cs, ss, k); }
      if k + 1 < |cs| { Distinct(h, owned, cs, ss, k, |cs| - 1); }
    }
  }

  // ---------- the loop ----------

  /** A constructor call whose argument number `hole` is the recursive call. */
  datatype Layer = Layer(kind: Kind, slots: seq<Word>, hole: nat)

  function LayerRefs(ls: seq<Layer>): multiset<Ref> {
    if ls == [] then multiset{} else Ptrs(ls[0].slots) + LayerRefs(ls[1..])
  }

  /** `vs` are the values of the arguments. */
  ghost predicate LayersMean(h: Heap, ls: seq<Layer>, vs: seq<seq<Val>>) {
    |ls| == |vs| && forall j :: 0 <= j < |ls| ==> LayerMeans(h, ls[j], vs[j])
  }

  ghost predicate LayerMeans(h: Heap, l: Layer, vs: seq<Val>) {
    !l.kind.SeqCell? && l.hole < |l.slots| && l.slots[l.hole] == Null && AllMean(h, l.slots, vs)
  }

  /** What recursion builds: the innermost value first, then each call around it. */
  function Recursive(ls: seq<Layer>, vs: seq<seq<Val>>, v: Val): Val
    requires |ls| == |vs|
  {
    if ls == [] then v else Fill(Node(ls[0].kind, vs[0]), [ls[0].hole], Recursive(ls[1..], vs[1..], v))
  }

  /** The context `t` holds the layers done so far, the outermost first. */
  ghost predicate Holds(t: Val, ss: seq<nat>, ls: seq<Layer>, vs: seq<seq<Val>>, done: nat)
    requires |ls| == |vs| && done <= |ls|
  {
    forall u :: Fill(t, ss, Recursive(ls[done..], vs[done..], u)) == Recursive(ls, vs, u)
  }

  lemma HoldsNext(t: Val, ss: seq<nat>, ls: seq<Layer>, vs: seq<seq<Val>>, k: nat)
    requires |ls| == |vs| && k < |ls| && Holds(t, ss, ls, vs, k) && ls[k].hole < |vs[k]|
    ensures Holds(Fill(t, ss, Node(ls[k].kind, vs[k])), ss + [ls[k].hole], ls, vs, k + 1)
  {
    forall u
      ensures Fill(Fill(t, ss, Node(ls[k].kind, vs[k])), ss + [ls[k].hole], Recursive(ls[k + 1..], vs[k + 1..], u)) == Recursive(ls, vs, u)
    {
      FillNested(t, ss, Node(ls[k].kind, vs[k]), ls[k].hole, Recursive(ls[k + 1..], vs[k + 1..], u));
      assert ls[k..][1..] == ls[k + 1..] && vs[k..][1..] == vs[k + 1..];
      assert Fill(t, ss, Recursive(ls[k..], vs[k..], u)) == Recursive(ls, vs, u);
    }
  }

  /** After `k` layers: they are in the context, and the rest is as it was. */
  ghost predicate Building(h: Heap, h1: Heap, owned: multiset<Ref>, rest: multiset<Ref>, ls: seq<Layer>, vs: seq<seq<Val>>,
      k: nat, x: Context, cs: seq<Ref>, ss: seq<nat>, t: Val)
    requires k <= |ls| == |vs|
  {
    && Counted(h1, owned) && owned == rest + LayerRefs(ls[k..]) + PtrOf(x.res)
    && Stands(h1, rest + LayerRefs(ls[k..]), x, cs, ss, t)
    && Holds(t, ss, ls, vs, k) && Same(h, h1, rest + LayerRefs(ls[k..]))
  }

  method Build(rt: Runtime, ls: seq<Layer>, leaf: Word, ghost keep: multiset<Ref>,
      ghost vs: seq<seq<Val>>, ghost v: Val) returns (res: Word)
    requires rt.Valid() && rt.owned == keep + PtrOf(leaf) + LayerRefs(ls)
    requires LayersMean(rt.cells, ls, vs) && Means(rt.cells, leaf, v)
    modifies rt
    ensures rt.Valid() && rt.owned == keep + PtrOf(res)
    ensures Means(rt.cells, res, Recursive(ls, vs, v))
    ensures Same(old(rt.cells), rt.cells, keep)
  {
    var x := Context(Null, NoHole);
    ghost var h, rest, t := rt.cells, keep + PtrOf(leaf), Absent;
    ghost var cs: seq<Ref>, ss: seq<nat> := [], [];
    assert Building(h, rt.cells, rt.owned, rest, ls, vs, 0, x, cs, ss, t) by { assert ls[0..] == ls && vs[0..] == vs; }
    var k := 0;
    while k < |ls|
      invariant k <= |ls| && Building(h, rt.cells, rt.owned, rest, ls, vs, k, x, cs, ss, t)
    {
      x, cs, ss, t := BuildStep(rt, x, ls, k, h, rest, vs, cs, ss, t);
      k := k + 1;
    }
    AllBuilt(h, rt.cells, rt.owned, keep, leaf, ls, vs, x, cs, ss, t);
    assert Means(rt.cells, leaf, v);
    res := PutLeaf(rt, x, leaf, h, keep, cs, ss, t);
  }

  lemma AllBuilt(h: Heap, h1: Heap, owned: multiset<Ref>, keep: multiset<Ref>, leaf: Word, ls: seq<Layer>, vs: seq<seq<Val>>,
      x: Context, cs: seq<Ref>, ss: seq<nat>, t: Val)
    requires |ls| == |vs| && Building(h, h1, owned, keep + PtrOf(leaf), ls, vs, |ls|, x, cs, ss, t)
    ensures owned == keep + PtrOf(x.res) + PtrOf(leaf) && Stands(h1, keep + PtrOf(leaf), x, cs, ss, t)
    ensures Same(h, h1, keep) && Same(h, h1, keep + PtrOf(leaf))
    ensures forall v :: Fill(t, ss, v) == Recursive(ls, vs, v)
  {
    assert LayerRefs(ls[|ls|..]) == multiset{};
    assert keep + PtrOf(leaf) + multiset{} == keep + PtrOf(leaf);
    forall u ensures Fill(t, ss, u) == Recursive(ls, vs, u) { assert Recursive(ls[|ls|..], vs[|ls|..], u) == u; }
  }

  method PutLeaf(rt: Runtime, x: Context, leaf: Word, ghost h: Heap, ghost keep: multiset<Ref>,
      ghost cs: seq<Ref>, ghost ss: seq<nat>, ghost t: Val) returns (res: Word)
    requires rt.Valid() && rt.owned == keep + PtrOf(x.res) + PtrOf(leaf)
    requires Stands(rt.cells, keep + PtrOf(leaf), x, cs, ss, t) && Same(h, rt.cells, keep)
    modifies rt
    ensures rt.Valid() && rt.owned == keep + PtrOf(res) && Same(h, rt.cells, keep)
    ensures forall v :: Means(old(rt.cells), leaf, v) ==> Means(rt.cells, res, Fill(t, ss, v))
  {
    ghost var h1 := rt.cells;
    PtrsOne(leaf);
    res := Apply(rt, x, leaf, keep, cs, ss, t);
    SameAfter(h, h1, rt.cells, keep, [leaf], x, cs, ss, t);
  }

  lemma LayerNext(rest: multiset<Ref>, ls: seq<Layer>, k: nat)
    requires k < |ls|
    ensures rest + LayerRefs(ls[k..]) == rest + LayerRefs(ls[k + 1..]) + Ptrs(ls[k].slots)
  {
    assert ls[k..][0] == ls[k] && ls[k..][1..] == ls[k + 1..];
  }

  method BuildStep(rt: Runtime, x: Context, ls: seq<Layer>, k: nat, ghost h: Heap, ghost rest: multiset<Ref>,
      ghost vs: seq<seq<Val>>, ghost cs: seq<Ref>, ghost ss: seq<nat>, ghost t: Val)
    returns (x': Context, ghost cs': seq<Ref>, ghost ss': seq<nat>, ghost t': Val)
    requires k < |ls| == |vs| && LayerMeans(h, ls[k], vs[k])
    requires Building(h, rt.cells, rt.owned, rest, ls, vs, k, x, cs, ss, t)
    modifies rt
    ensures Building(h, rt.cells, rt.owned, rest, ls, vs, k + 1, x', cs', ss', t')
  {
    ghost var h1, later := rt.cells, rest + LayerRefs(ls[k + 1..]);
    var l := ls[k];
    LayerNext(rest, ls, k);
    SlotsSame(h, h1, later + Ptrs(l.slots), l.slots, vs[k]);
    x' := Extend(rt, x, l.kind, l.slots, l.hole, later, cs, ss, t, vs[k]);
    SameAfter(h, h1, rt.cells, later, l.slots, x, cs, ss, t);
    HoldsNext(t, ss, ls, vs, k);
    cs', ss', t' := cs + [|h1|], ss + [l.hole], Fill(t, ss, Node(l.kind, vs[k]));
  }

  lemma SlotsSame(h: Heap, h': Heap, keep: multiset<Ref>, slots: seq<Word>, vs: seq<Val>)
    requires Same(h, h', keep) && Ptrs(slots) <= keep && AllMean(h, slots, vs)
    ensures AllMean(h', slots, vs)
  {
    forall i | 0 <= i < |slots| ensures Means(h', slots[i], vs[i]) {
      if slots[i].Ptr? { PtrsUpdate(slots, i, Null, slots[i].ref); }
    }
  }

  lemma SameAfter(h: Heap, h1: Heap, h2: Heap, keep: multiset<Ref>, slots: seq<Word>,
      x: Context, cs: seq<Ref>, ss: seq<nat>, t: Val)
    requires Counted(h1, keep + PtrOf(x.res) + Ptrs(slots)) && Stands(h1, keep + Ptrs(slots), x, cs, ss, t)
    requires Same(h, h1, keep) && Undisturbed(h1, h2, cs)
    ensures Same(h, h2, keep)
  {
    var owned := keep + PtrOf(x.res) + Ptrs(slots);
    forall w: Word, v | (w.Ptr? ==> w.ref in keep) && Means(h, w, v) ensures Means(h2, w, v) {
      assert Means(h1, w, v);
      if w.Ptr? && w.ref in cs {
        assert owned == keep + Ptrs(slots) + multiset{cs[0]};
        KeptOffSpine(h1, owned, cs, ss, w.ref);
      }
    }
  }

  // ---------- appending lists ----------

  /** The value of `xs ++ ys`. */
  function Append(xs: Val, ys: Val): Val {
    if xs.Node? && xs.kind == ConsCell && |xs.children| == 2 && xs.children[0] != Absent
    then Node(ConsCell, [xs.children[0], Append(xs.children[1], ys)])
    else ys
  }

  lemma {:induction false} AppendElements(xs: Val, ys: Val)
    ensures Elements(Append(xs, ys)) == Elements(xs) + Elements(ys)
    decreases xs
  {
    if Elements(xs) != [] {
      AppendElements(xs.children[1], ys);
    }
  }

  /** Between two elements: the copy so far is in the context, and the cursor `at`, which stands
      for `av`, has not reached the rest of the borrowed list. */
  ghost predicate Copying(h: Heap, h1: Heap, keep: multiset<Ref>, xv: Val, at: Word, av: Val,
      x: Context, cs: seq<Ref>, ss: seq<nat>, t: Val)
  {
    && Counted(h1, keep + PtrOf(x.res)) && Stands(h1, keep, x, cs, ss, t)
    && Means(h1, at, av) && (at.Ptr? ==> at.ref !in cs)
    && (forall u :: Fill(t, ss, Append(av, u)) == Append(xv, u))
    && Same(h, h1, keep)
  }

  /** `xs ++ ys`, when the frame only borrows both: the cells of `xs` are copied, its elements
      and `ys` are shared. */
  method AppendBorrow(rt: Runtime, xs: Word, ys: Word, ghost xv: Val, ghost yv: Val) returns (res: Word)
    requires rt.Valid() && Means(rt.cells, xs, xv) && Means(rt.cells, ys, yv)
    requires ys.Ptr? ==> ys.ref in rt.owned
    modifies rt
    ensures rt.Valid() && rt.owned == old(rt.owned) + PtrOf(res)
    ensures Means(rt.cells, res, Append(xv, yv)) && Elements(Append(xv, yv)) == Elements(xv) + Elements(yv)
    ensures Same(old(rt.cells), rt.cells, old(rt.owned))
  {
    AppendElements(xv, yv);
    var x, at := Context(Null, NoHole), xs;
    ghost var h, keep, av, t := rt.cells, rt.owned, xv, Absent;
    ghost var cs: seq<Ref>, ss: seq<nat> := [], [];
    while IsCons(rt.cells, at) && rt.cells[at.ref].slots[0] != Null
      invariant rt.owned == keep + PtrOf(x.res)
      invariant Copying(h, rt.cells, keep, xv, at, av, x, cs, ss, t)
      decreases av
    {
      at, x, av, cs, ss, t := CopyOne(rt, x, at, h, keep, xv, av, cs, ss, t);
    }
    ConsValue(rt.cells, at, av);
    assert Append(av, yv) == yv;
    res := EndWith(rt, x, ys, h, keep, yv, cs, ss, t);
  }

  /** Puts a shared reference to `ys` into the hole. */
  method EndWith(rt: Runtime, x: Context, ys: Word, ghost h: Heap, ghost keep: multiset<Ref>, ghost yv: Val,
      ghost cs: seq<Ref>, ghost ss: seq<nat>, ghost t: Val) returns (res: Word)
    requires rt.Valid() && rt.owned == keep + PtrOf(x.res) && Stands(rt.cells, keep, x, cs, ss, t)
    requires Same(h, rt.cells, keep) && Means(h, ys, yv) && (ys.Ptr? ==> ys.ref in keep)
    modifies rt
    ensures rt.Valid() && rt.owned == keep + PtrOf(res)
    ensures Means(rt.cells, res, Fill(t, ss, yv)) && Same(h, rt.cells, keep)
  {
    if ys.Ptr? { OwnedLives(rt.cells, rt.owned, ys.ref); KeptOff(rt.cells, keep, x, cs, ss, t, ys); }
    ShareElement(rt.cells, keep, x, cs, ss, t, ys);
    Share(rt, ys);
    assert rt.owned == keep + PtrOf(x.res) + PtrOf(ys);
    res := PutLeaf(rt, x, ys, h, keep, cs, ss, t);
  }

  lemma KeptOff(h: Heap, keep: multiset<Ref>, x: Context, cs: seq<Ref>, ss: seq<nat>, t: Val, w: Word)
    requires Counted(h, keep + PtrOf(x.res)) && Stands(h, keep, x, cs, ss, t) && w.Ptr? && w.ref in keep
    ensures w.ref !in cs
  {
    if w.ref in cs { KeptOffSpine(h, keep + PtrOf(x.res), cs, ss, w.ref); }
  }

  /** Taking another reference to something off the spine. */
  lemma ShareElement(h: Heap, keep: multiset<Ref>, x: Context, cs: seq<Ref>, ss: seq<nat>, t: Val, w: Word)
    requires Stands(h, keep, x, cs, ss, t) && (w.Ptr? ==> Live(h, w.ref) && w.ref !in cs)
    ensures Stands(Shared(h, w), keep + PtrOf(w), x, cs, ss, t)
    ensures forall u, v :: Means(h, u, v) ==> Means(Shared(h, w), u, v)
  {
    forall u, v | Means(h, u, v) ensures Means(Shared(h, w), u, v) {
      SharedMean(h, w, u, v);
    }
    forall k | 0 <= k < |cs| ensures Joint(Shared(h, w), cs, ss, k) {
      assert Joint(h, cs, ss, k);
      assert cs[k] in cs;
    }
  }

  method CopyOne(rt: Runtime, x: Context, at: Word, ghost h: Heap, ghost keep: multiset<Ref>, ghost xv: Val,
      ghost av: Val, ghost cs: seq<Ref>, ghost ss: seq<nat>, ghost t: Val)
    returns (at': Word, x': Context, ghost av': Val, ghost cs': seq<Ref>, ghost ss': seq<nat>, ghost t': Val)
    requires Copying(h, rt.cells, keep, xv, at, av, x, cs, ss, t) && rt.owned == keep + PtrOf(x.res)
    requires IsCons(rt.cells, at) && rt.cells[at.ref].slots[0] != Null
    modifies rt
    ensures Copying(h, rt.cells, keep, xv, at', av', x', cs', ss', t') && rt.owned == keep + PtrOf(x'.res)
    ensures av.Node? && av' in av.children
  {
    var head := rt.cells[at.ref].slots[0];
    at' := rt.cells[at.ref].slots[1];
    ConsValue(rt.cells, at, av);
    CursorOff(rt.cells, keep, x, at, cs, ss, t);
    CopiedOne(t, ss, xv, av);
    av' := av.children[1];
    x', cs', ss', t' := CopyElement(rt, x, head, h, keep, av.children[0], cs, ss, t);
  }

  /** A new cell for one more element, which it shares. */
  method CopyElement(rt: Runtime, x: Context, head: Word, ghost h: Heap, ghost keep: multiset<Ref>, ghost hv: Val,
      ghost cs: seq<Ref>, ghost ss: seq<nat>, ghost t: Val)
    returns (x': Context, ghost cs': seq<Ref>, ghost ss': seq<nat>, ghost t': Val)
    requires rt.Valid() && rt.owned == keep + PtrOf(x.res) && Stands(rt.cells, keep, x, cs, ss, t)
    requires Same(h, rt.cells, keep) && Means(rt.cells, head, hv) && (head.Ptr? ==> head.ref !in cs)
    modifies rt
    ensures rt.Valid() && rt.owned == keep + PtrOf(x'.res) && Stands(rt.cells, keep, x', cs', ss', t')
    ensures t' == Fill(t, ss, Node(ConsCell, [hv, Absent])) && ss' == ss + [1] && cs' == cs + [|old(rt.cells)|]
    ensures Undisturbed(old(rt.cells), rt.cells, cs) && Same(h, rt.cells, keep)
  {
    ShareHead(rt, x, head, keep, cs, ss, t);
    ghost var h2 := rt.cells;
    PtrsTwo(head, Null);
    x', cs', ss', t' := AddElement(rt, x, head, keep, hv, cs, ss, t);
    SameAfter(h, h2, rt.cells, keep, [head, Null], x, cs, ss, t);
  }

  method ShareHead(rt: Runtime, x: Context, head: Word, ghost keep: multiset<Ref>, ghost cs: seq<Ref>, ghost ss: seq<nat>, ghost t: Val)
    requires rt.Valid() && rt.owned == keep + PtrOf(x.res) && Stands(rt.cells, keep, x, cs, ss, t)
    requires head.Ptr? ==> head.ref !in cs && Live(rt.cells, head.ref)
    modifies rt
    ensures rt.Valid() && rt.owned == keep + PtrOf(x.res) + PtrOf(head)
    ensures Stands(rt.cells, keep + PtrOf(head), x, cs, ss, t)
    ensures |rt.cells| == |old(rt.cells)| && forall u, v :: Means(old(rt.cells), u, v) ==> Means(rt.cells, u, v)
  {
    ShareElement(rt.cells, keep, x, cs, ss, t, head);
    Share(rt, head);
  }

  method AddElement(rt: Runtime, x: Context, head: Word, ghost keep: multiset<Ref>, ghost hv: Val,
      ghost cs: seq<Ref>, ghost ss: seq<nat>, ghost t: Val)
    returns (x': Context, ghost cs': seq<Ref>, ghost ss': seq<nat>, ghost t': Val)
    requires rt.Valid() && rt.owned == keep + PtrOf(x.res) + PtrOf(head) && Stands(rt.cells, keep + PtrOf(head), x, cs, ss, t)
    requires Means(rt.cells, head, hv)
    modifies rt
    ensures rt.Valid() && rt.owned == keep + PtrOf(x'.res) && Stands(rt.cells, keep, x', cs', ss', t')
    ensures t' == Fill(t, ss, Node(ConsCell, [hv, Absent])) && ss' == ss + [1] && cs' == cs + [|old(rt.cells)|]
    ensures Undisturbed(old(rt.cells), rt.cells, cs)
  {
    PtrsTwo(head, Null);
    t', ss', cs' := Fill(t, ss, Node(ConsCell, [hv, Absent])), ss + [1], cs + [|rt.cells|];
    x' := Extend(rt, x, ConsCell, [head, Null], 1, keep, cs, ss, t, [hv, Absent]);
  }

  /** The element and the rest of the list are off the spine too. */
  lemma CursorOff(h: Heap, keep: multiset<Ref>, x: Context, at: Word, cs: seq<Ref>, ss: seq<nat>, t: Val)
    requires Counted(h, keep + PtrOf(x.res)) && Stands(h, keep, x, cs, ss, t) && IsCons(h, at) && at.ref !in cs
    ensures forall w <- h[at.ref].slots :: w.Ptr? ==> w.ref !in cs && Live(h, w.ref)
  {
    var owned := keep + PtrOf(x.res);
    forall j | 0 <= j < |h[at.ref].slots| && h[at.ref].slots[j].Ptr?
      ensures h[at.ref].slots[j].ref !in cs && Live(h, h[at.ref].slots[j].ref)
    {
      SlotLives(h, owned, at.ref, j);
      if h[at.ref].slots[j].ref in cs {
        var k :| 0 <= k < |cs| && cs[k] == h[at.ref].slots[j].ref;
        Secluded(h, owned, cs, ss, at.ref, j, k);
      }
    }
  }

  lemma CopiedOne(t: Val, ss: seq<nat>, xv: Val, av: Val)
    requires av.Node? && av.kind == ConsCell && |av.children| == 2 && av.children[0] != Absent
    requires forall u :: Fill(t, ss, Append(av, u)) == Append(xv, u)
    ensures forall u :: Fill(Fill(t, ss, Node(ConsCell, [av.children[0], Absent])), ss + [1], Append(av.children[1], u)) == Append(xv, u)
  {
    var n := Node(ConsCell, [av.children[0], Absent]);
    forall u ensures Fill(Fill(t, ss, n), ss + [1], Append(av.children[1], u)) == Append(xv, u) {
      FillNested(t, ss, n, 1, Append(av.children[1], u));
      assert Fill(n, [1], Append(av.children[1], u)) == Append(av, u);
    }
  }
}
