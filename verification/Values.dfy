/** The value a word of the heap stands for, and why changing a cell that nobody else refers to
    cannot be seen in any other value. */
module Values {
  import opened RcHeap

  /** A lazy cell stands for itself: reading it writes its step into it. */
  datatype Val = Absent | Unboxed(value: int) | Node(kind: Kind, children: seq<Val>) | Lazy(cell: Ref)

  /** The outermost part of a value. */
  datatype Top = Dangling | NoValue | Scalar(value: int) | Branch(kind: Kind, arity: nat) | Delayed(cell: Ref)

  function WordTop(h: Heap, w: Word): Top {
    match w
    case Null => NoValue
    case Raw(i) => Scalar(i)
    case Ptr(r) =>
      if !Live(h, r) then Dangling
      else if h[r].kind.SeqCell? then Delayed(r)
      else Branch(h[r].kind, |h[r].slots|)
  }

  function ValTop(v: Val): Top {
    match v
    case Absent => NoValue
    case Unboxed(i) => Scalar(i)
    case Lazy(r) => Delayed(r)
    case Node(kind, children) => Branch(kind, |children|)
  }

  /** `w` stands for the tree `v`. */
  ghost predicate Means(h: Heap, w: Word, v: Val)
    decreases v
  {
    && WordTop(h, w) == ValTop(v)
    && (v.Node? ==> forall i :: 0 <= i < |v.children| ==> Means(h, h[w.ref].slots[i], v.children[i]))
  }

  ghost predicate AllMean(h: Heap, ws: seq<Word>, vs: seq<Val>) {
    |ws| == |vs| && forall i :: 0 <= i < |ws| ==> Means(h, ws[i], vs[i])
  }

  /** A word stands for at most one value. */
  lemma {:induction false} MeansOnce(h: Heap, w: Word, u: Val, v: Val)
    requires Means(h, w, u) && Means(h, w, v)
    ensures u == v
    decreases v
  {
    if w.Ptr? && v.Node? {
      forall i | 0 <= i < |v.children| ensures u.children[i] == v.children[i] {
        MeansOnce(h, h[w.ref].slots[i], u.children[i], v.children[i]);
      }
    }
  }

  ghost predicate Agree(h: Heap, h': Heap, r: Ref) {
    Live(h, r) ==> Live(h', r) && Alike(h[r], h'[r])
  }

  /** No other cell than `x` changed. */
  ghost predicate OthersAlike(h: Heap, h': Heap, x: Ref) {
    |h| == |h'| && forall r: Ref :: r != x ==> Agree(h, h', r) && Agree(h', h, r)
  }

  /** Only `x` changed, and nobody refers to it: no other value can tell. */
  lemma {:induction false} SameMeans(h: Heap, h': Heap, w: Word, v: Val, x: Ref)
    requires Means(h, w, v) && w != Ptr(x) && Out(h, x) == 0
    requires forall r: Ref :: r != x ==> Agree(h, h', r)
    ensures Means(h', w, v)
    decreases v
  {
    if w.Ptr? { assert Agree(h, h', w.ref); }
    if w.Ptr? && v.Node? {
      forall i | 0 <= i < |v.children| ensures Means(h', h[w.ref].slots[i], v.children[i]) {
        if h[w.ref].slots[i].Ptr? { SlotOwns(h, w.ref, i); }
        SameMeans(h, h', h[w.ref].slots[i], v.children[i], x);
      }
    }
  }

  /** Freeing cells and changing counts leaves what is still live with its value. */
  lemma {:induction false} CountsMean(h: Heap, h': Heap, owned': multiset<Ref>, w: Word, v: Val)
    requires Means(h, w, v) && OnlyCounts(h, h') && Counted(h', owned') && (w.Ptr? ==> Live(h', w.ref))
    ensures Means(h', w, v)
    decreases v
  {
    if w.Ptr? && v.Node? {
      forall i | 0 <= i < |v.children| ensures Means(h', h[w.ref].slots[i], v.children[i]) {
        var c := h[w.ref].slots[i];
        if c.Ptr? { SlotLives(h', owned', w.ref, i); }
        CountsMean(h, h', owned', c, v.children[i]);
      }
    }
  }

  /** A fresh cell is in no value yet. */
  lemma {:induction false} AppendMean(h: Heap, owned: multiset<Ref>, c: Cell, w: Word, v: Val)
    requires Counted(h, owned) && (w.Ptr? ==> Live(h, w.ref))
    ensures Means(h, w, v) <==> Means(h + [c], w, v)
    decreases v
  {
    if w.Ptr? && v.Node? && |v.children| == |h[w.ref].slots| {
      forall i | 0 <= i < |v.children|
        ensures Means(h, h[w.ref].slots[i], v.children[i]) <==> Means(h + [c], h[w.ref].slots[i], v.children[i])
      {
        if h[w.ref].slots[i].Ptr? { SlotLives(h, owned, w.ref, i); }
        AppendMean(h, owned, c, h[w.ref].slots[i], v.children[i]);
      }
    }
  }

  lemma {:induction false} CountsMeanBack(h: Heap, h': Heap, w: Word, v: Val)
    requires Means(h', w, v) && OnlyCounts(h, h')
    ensures Means(h, w, v)
    decreases v
  {
    if w.Ptr? && v.Node? {
      forall i | 0 <= i < |v.children| ensures Means(h, h'[w.ref].slots[i], v.children[i]) {
        CountsMeanBack(h, h', h'[w.ref].slots[i], v.children[i]);
      }
    }
  }

  /** The same for rewriting a cell that exists, in both directions. */
  lemma HiddenWrite(h: Heap, h': Heap, x: Ref, w: Word, v: Val)
    requires w != Ptr(x) && Out(h, x) == Out(h', x) == 0
    requires OthersAlike(h, h', x)
    ensures Means(h, w, v) <==> Means(h', w, v)
  {
    if Means(h, w, v) { SameMeans(h, h', w, v, x); }
    if Means(h', w, v) { SameMeans(h', h, w, v, x); }
  }

  /** The heap after one more reference to `w` is taken. */
  function Shared(h: Heap, w: Word): Heap
    requires w.Ptr? ==> Live(h, w.ref)
  {
    if w.Ptr? then h[w.ref := h[w.ref].(rc := h[w.ref].rc + 1)] else h
  }

  /** `kai_incref`, which leaves unboxed values alone. */
  method Share(rt: Runtime, w: Word)
    requires rt.Valid() && (w.Ptr? ==> Live(rt.cells, w.ref))
    modifies rt
    ensures rt.Valid() && rt.owned == old(rt.owned) + PtrOf(w) && rt.cells == Shared(old(rt.cells), w)
  {
    if w.Ptr? { rt.Incref(w.ref); }
  }

  lemma {:induction false} SharedMean(h: Heap, w: Word, u: Word, v: Val)
    requires (w.Ptr? ==> Live(h, w.ref)) && Means(h, u, v)
    ensures Means(Shared(h, w), u, v)
    decreases v
  {
    if u.Ptr? && v.Node? {
      forall i | 0 <= i < |v.children| ensures Means(Shared(h, w), h[u.ref].slots[i], v.children[i]) {
        SharedMean(h, w, h[u.ref].slots[i], v.children[i]);
      }
    }
  }

  /** What the frame still holds has its value from before the loop. */
  ghost predicate Same(h: Heap, h': Heap, keep: multiset<Ref>) {
    forall w: Word, v :: (w.Ptr? ==> w.ref in keep) && Means(h, w, v) ==> Means(h', w, v)
  }

  // ---------- lists ----------

  predicate IsCons(h: Heap, w: Word) {
    w.Ptr? && Live(h, w.ref) && h[w.ref].kind.ConsCell? && |h[w.ref].slots| == 2
  }

  function Elements(xs: Val): seq<Val> {
    if xs.Node? && xs.kind == ConsCell && |xs.children| == 2 && xs.children[0] != Absent
    then [xs.children[0]] + Elements(xs.children[1])
    else []
  }

  lemma ConsValue(h: Heap, w: Word, v: Val)
    requires Means(h, w, v)
    ensures IsCons(h, w) <==> v.Node? && v.kind == ConsCell && |v.children| == 2
    ensures IsCons(h, w) ==> Means(h, h[w.ref].slots[0], v.children[0]) && Means(h, h[w.ref].slots[1], v.children[1])
    ensures IsCons(h, w) ==> (h[w.ref].slots[0] == Null <==> v.children[0] == Absent)
  {
    if IsCons(h, w) { assert Means(h, h[w.ref].slots[0], v.children[0]); }
  }
}
