/** The predicate list of a filter stage: one closure, or an array of closures that grows in
    place while nobody else sees it. */
module SeqPreds {
  import opened RcHeap

  /** `p` is a predicate list: a closure, or an array of closures within its capacity. */
  ghost predicate IsPreds(h: Heap, p: Ref) {
    && Live(h, p)
    && (h[p].kind.ClosureCell? || h[p].kind.ArrayCell?)
    && (h[p].kind.ArrayCell? ==> |h[p].slots| <= h[p].kind.cap && ClosuresIn(h, h[p].slots))
  }

  ghost predicate ClosuresIn(h: Heap, ws: seq<Word>) {
    forall i :: 0 <= i < |ws| ==> ws[i].Ptr? && Live(h, ws[i].ref) && h[ws[i].ref].kind.ClosureCell?
  }

  /** The closures of the list, in the order they apply. */
  function Items(h: Heap, p: Ref): seq<Word>
    requires Live(h, p)
  {
    if h[p].kind.ArrayCell? then h[p].slots else [Ptr(p)]
  }

  function CodeOf(h: Heap, w: Word): nat {
    if w.Ptr? && Live(h, w.ref) && h[w.ref].kind.ClosureCell? then h[w.ref].kind.code else 0
  }

  function CodesOf(h: Heap, ws: seq<Word>): seq<nat> {
    seq(|ws|, i requires 0 <= i < |ws| => CodeOf(h, ws[i]))
  }

  /** The predicates of the list `p`, in the order they apply. */
  function Codes(h: Heap, p: Ref): seq<nat>
    requires Live(h, p)
  {
    CodesOf(h, Items(h, p))
  }

  /** All cells but those in `except` are as they were, whatever their counts. */
  ghost predicate Untouched(h: Heap, h': Heap, except: set<Ref>) {
    && |h| <= |h'|
    && forall r: Ref :: r < |h| && r !in except && Live(h', r) ==> Live(h, r) && Alike(h[r], h'[r])
  }

  predicate IsClosure(h: Heap, r: Ref) {
    Live(h, r) && h[r].kind.ClosureCell?
  }

  /** Only closures gained owners among the slots. */
  ghost predicate OnlyClosuresGain(h: Heap, h': Heap) {
    forall r: Ref :: NoGain(h, h', r)
  }

  ghost predicate NoGain(h: Heap, h': Heap, r: Ref) {
    |h| <= r || IsClosure(h, r) || Out(h', r) <= Out(h, r)
  }

  lemma GainsCompose(g: Heap, h: Heap, h': Heap, except: set<Ref>)
    requires OnlyClosuresGain(g, h) && OnlyClosuresGain(h, h')
    requires Untouched(g, h, except) && forall r <- except :: !IsClosure(h, r)
    ensures OnlyClosuresGain(g, h')
  {
    forall r: Ref ensures NoGain(g, h', r) {
      assert NoGain(g, h, r) && NoGain(h, h', r);
    }
  }

  lemma PushOut(h: Heap, out: Ref, x: Ref, h': Heap)
    requires Live(h, out) && Live(h, x) && out != x && |h'| == |h|
    requires h' == h[x := h[x].(rc := h[x].rc + 1)][out := h[out].(slots := h[out].slots + [Ptr(x)])]
    requires IsClosure(h, x)
    ensures OnlyClosuresGain(h, h')
  {
    var h1 := h[x := h[x].(rc := h[x].rc + 1)];
    forall r: Ref ensures NoGain(h, h', r) {
      OutUpdate(h, x, h1[x], r);
      OutUpdate(h1, out, h'[out], r);
      PtrsAppend(h[out].slots, [Ptr(x)]);
      PtrsOne(Ptr(x));
      assert Ptrs(h'[out].slots) == Ptrs(h[out].slots) + multiset{x};
    }
  }

  lemma ShrinkGains(h: Heap, h': Heap)
    requires OnlyCounts(h, h')
    ensures OnlyClosuresGain(h, h')
  {
    forall r: Ref ensures NoGain(h, h', r) { OutShrinks(h, h', r); }
  }

  /** Closures that are still there are still the same closures. */
  lemma SameClosures(h: Heap, h': Heap, except: set<Ref>, ws: seq<Word>)
    requires ClosuresIn(h, ws) && Untouched(h, h', except)
    requires forall i :: 0 <= i < |ws| ==> Live(h', ws[i].ref)
    requires forall r <- except :: Live(h, r) && Live(h', r) ==> !h[r].kind.ClosureCell?
    ensures ClosuresIn(h', ws) && CodesOf(h', ws) == CodesOf(h, ws)
  {
  }

  /** A predicate list that nobody wrote to means the same. */
  lemma SamePreds(h: Heap, h': Heap, owned: multiset<Ref>, except: set<Ref>, p: Ref)
    requires IsPreds(h, p) && Live(h', p) && p !in except && Untouched(h, h', except) && Counted(h', owned)
    requires forall r <- except :: Live(h, r) && Live(h', r) ==> !h[r].kind.ClosureCell?
    ensures IsPreds(h', p) && Items(h', p) == Items(h, p) && Codes(h', p) == Codes(h, p)
  {
    if h[p].kind.ArrayCell? {
      var ws := h[p].slots;
      forall i | 0 <= i < |ws| ensures Live(h', ws[i].ref) {
        SlotLives(h', owned, p, i);
      }
      SameClosures(h, h', except, ws);
    }
  }

  /** Copies references to the closures of `src` behind those `out` already holds. */
  method CopyInto(rt: Runtime, out: Ref, src: Ref)
    requires rt.Valid() && IsPreds(rt.cells, out) && IsPreds(rt.cells, src) && out != src
    requires rt.cells[out].kind.ArrayCell? && rt.cells[out].rc == 1 && out in rt.owned
    requires |rt.cells[out].slots| + |Items(rt.cells, src)| <= rt.cells[out].kind.cap
    modifies rt
    ensures rt.Valid() && rt.owned == old(rt.owned) && |rt.cells| == |old(rt.cells)|
    ensures Live(rt.cells, out) && rt.cells[out].rc == 1 && rt.cells[out].kind == old(rt.cells)[out].kind
    ensures rt.cells[out].slots == old(rt.cells)[out].slots + Items(old(rt.cells), src)
    ensures forall r: Ref :: Live(old(rt.cells), r) ==> Live(rt.cells, r) && rt.cells[r].rc >= old(rt.cells)[r].rc
    ensures Untouched(old(rt.cells), rt.cells, {out}) && OnlyClosuresGain(old(rt.cells), rt.cells)
  {
    var from := Items(rt.cells, src);
    ghost var kept := rt.cells[out].slots;
    var i := 0;
    while i < |from|
      invariant 0 <= i <= |from|
      invariant rt.Valid() && rt.owned == old(rt.owned) && |rt.cells| == |old(rt.cells)|
      invariant Live(rt.cells, out) && rt.cells[out].rc == 1 && rt.cells[out].kind == old(rt.cells)[out].kind
      invariant rt.cells[out].slots == kept + from[..i]
      invariant forall r: Ref :: Live(old(rt.cells), r) ==> Live(rt.cells, r) && rt.cells[r].rc >= old(rt.cells)[r].rc
      invariant Untouched(old(rt.cells), rt.cells, {out}) && OnlyClosuresGain(old(rt.cells), rt.cells)
    {
      assert Live(rt.cells, from[i].ref) && from[i].ref != out;
      ghost var h := rt.cells;
      rt.PushShared(out, from[i].ref);
      PushOut(h, out, from[i].ref, rt.cells);
      GainsCompose(old(rt.cells), h, rt.cells, {out});
      assert kept + from[..i] + [from[i]] == kept + from[..i + 1];
      i := i + 1;
    }
  }

  /** Only the frame sees this array, so it may grow in place. */
  predicate GrowsInPlace(h: Heap, p: Ref) {
    Live(h, p) && h[p].kind.ArrayCell? && h[p].rc == 1
  }

  function Room(nf: nat, nt: nat, want: nat): nat {
    if (nf + nt) * 2 > want then (nf + nt) * 2 else want
  }

  lemma AddedPreds(h: Heap, c: Cell, p: Ref)
    requires IsPreds(h, p)
    ensures IsPreds(h + [c], p) && Items(h + [c], p) == Items(h, p)
  {
  }

  /** A new array that shares the closures of `first` and has room for `room`; consumes `first`. */
  method CopyPreds(rt: Runtime, first: Ref, room: nat, ghost keep: multiset<Ref>) returns (out: Ref)
    requires rt.Valid() && rt.owned == keep + multiset{first} && IsPreds(rt.cells, first) && |Items(rt.cells, first)| <= room
    modifies rt
    ensures rt.Valid() && rt.owned == keep + multiset{out}
    ensures out == |old(rt.cells)| && |rt.cells| == out + 1
    ensures IsPreds(rt.cells, out) && rt.cells[out] == Cell(1, ArrayCell(room), Items(old(rt.cells), first))
    ensures Untouched(old(rt.cells), rt.cells, {}) && OnlyClosuresGain(old(rt.cells), rt.cells)
  {
    ghost var h := rt.cells;
    var items := Items(rt.cells, first);
    out := rt.Alloc(ArrayCell(room), [], keep + multiset{first});
    assert rt.owned == keep + multiset{first} + multiset{out};
    ghost var h1 := rt.cells;
    forall r: Ref ensures NoGain(h, h1, r) { OutAppend(h, Cell(1, ArrayCell(room), []), r); }
    AddedPreds(h, Cell(1, ArrayCell(room), []), first);
    CopyInto(rt, out, first);
    assert rt.cells[out].slots == items;
    ghost var h2 := rt.cells;
    GainsCompose(h, h1, h2, {});
    SameClosures(h, h2, {}, items);
    DecrefKeeping(rt, first, out, keep);
    GainsCompose(h, h2, rt.cells, {});
  }

  /** Gives up `p` while the frame holds the array `out`. */
  method DecrefKeeping(rt: Runtime, p: Ref, out: Ref, ghost keep: multiset<Ref>)
    requires rt.Valid() && rt.owned == keep + multiset{p} + multiset{out} && p != out
    requires IsPreds(rt.cells, out) && rt.cells[out].rc == 1
    modifies rt
    ensures rt.Valid() && rt.owned == keep + multiset{out}
    ensures OnlyCounts(old(rt.cells), rt.cells) && OnlyClosuresGain(old(rt.cells), rt.cells)
    ensures IsPreds(rt.cells, out) && rt.cells[out] == old(rt.cells)[out]
  {
    ghost var h, owned := rt.cells, rt.owned;
    OwnedLives(h, owned, out);
    rt.Decref(p);
    ShrinkGains(h, rt.cells);
    assert rt.owned == keep + multiset{out};
    StillUnique(h, owned, rt.cells, rt.owned, out);
    SamePreds(h, rt.cells, rt.owned, {}, out);
  }

  /** The second half of the join: `out` takes the closures of `second`, which is given up. */
  method Append(rt: Runtime, out: Ref, second: Ref, ghost h: Heap, ghost keep: multiset<Ref>)
    requires rt.Valid() && rt.owned == keep + multiset{second} + multiset{out}
    requires IsPreds(rt.cells, out) && GrowsInPlace(rt.cells, out)
    requires IsPreds(h, second) && second != out
    requires Untouched(h, rt.cells, {out}) && OnlyClosuresGain(h, rt.cells)
    requires Live(h, out) ==> !h[out].kind.ClosureCell?
    requires |rt.cells[out].slots| + |Items(h, second)| <= rt.cells[out].kind.cap
    modifies rt
    ensures rt.Valid() && rt.owned == keep + multiset{out}
    ensures |rt.cells| == |old(rt.cells)|
    ensures IsPreds(rt.cells, out) && GrowsInPlace(rt.cells, out)
    ensures Items(rt.cells, out) == Items(old(rt.cells), out) + Items(h, second)
    ensures Untouched(h, rt.cells, {out}) && OnlyClosuresGain(h, rt.cells)
  {
    OwnedLives(rt.cells, rt.owned, second);
    SamePreds(h, rt.cells, rt.owned, {out}, second);
    ghost var h1, items := rt.cells, Items(rt.cells, second);
    CopyInto(rt, out, second);
    SameClosures(h1, rt.cells, {out}, h1[out].slots);
    ghost var h2 := rt.cells;
    GainsCompose(h, h1, h2, {out});
    SameClosures(h1, h2, {out}, items);
    assert IsPreds(rt.cells, out);
    DecrefKeeping(rt, second, out, keep);
    GainsCompose(h, h2, rt.cells, {out});
  }

  /** A larger buffer for an array that the frame alone owns. */
  method Grow(rt: Runtime, p: Ref, room: nat)
    requires rt.Valid() && IsPreds(rt.cells, p) && GrowsInPlace(rt.cells, p)
    requires |rt.cells[p].slots| <= room
    modifies rt
    ensures rt.Valid() && rt.owned == old(rt.owned)
    ensures rt.cells == old(rt.cells)[p := old(rt.cells)[p].(kind := ArrayCell(room))]
    ensures IsPreds(rt.cells, p) && OnlyClosuresGain(old(rt.cells), rt.cells)
  {
    ghost var h, h' := rt.cells, rt.cells[p := rt.cells[p].(kind := ArrayCell(room))];
    forall r: Ref ensures NoGain(h, h', r) {
      OutUpdate(rt.cells, p, rt.cells[p].(kind := ArrayCell(room)), r);
    }
    rt.Write(p, ArrayCell(room), rt.cells[p].slots, rt.owned);
  }

  /** The first half of the join: a list that the frame alone owns, with room for `room`. */
  method Open(rt: Runtime, first: Ref, room: nat, ghost keep: multiset<Ref>) returns (out: Ref)
    requires rt.Valid() && rt.owned == keep + multiset{first} && IsPreds(rt.cells, first) && |Items(rt.cells, first)| <= room
    modifies rt
    ensures rt.Valid() && rt.owned == keep + multiset{out}
    ensures out == if old(rt.cells)[first].kind.ArrayCell? && old(rt.cells)[first].rc == 1 then first else |old(rt.cells)|
    ensures |rt.cells| == |old(rt.cells)| + if GrowsInPlace(old(rt.cells), first) then 0 else 1
    ensures IsPreds(rt.cells, out) && GrowsInPlace(rt.cells, out) && room <= rt.cells[out].kind.cap
    ensures Items(rt.cells, out) == Items(old(rt.cells), first)
    ensures Untouched(old(rt.cells), rt.cells, {out}) && OnlyClosuresGain(old(rt.cells), rt.cells)
  {
    if !GrowsInPlace(rt.cells, first) {
      out := CopyPreds(rt, first, room, keep);
    } else {
      out := first;
      if room > rt.cells[first].kind.cap { Grow(rt, first, room); }
    }
  }

  /** `first` then `second` as one list; consumes both. A list that only the frame sees grows in
      place, any other is copied. */
  method Join(rt: Runtime, first: Ref, second: Ref, want: nat, ghost keep: multiset<Ref>) returns (out: Ref)
    requires rt.Valid() && rt.owned == keep + multiset{first, second}
    requires IsPreds(rt.cells, first) && IsPreds(rt.cells, second)
    modifies rt
    ensures rt.Valid() && rt.owned == keep + multiset{out}
    ensures out == if old(rt.cells)[first].kind.ArrayCell? && old(rt.cells)[first].rc == 1 then first else |old(rt.cells)|
    ensures |rt.cells| == |old(rt.cells)| + if GrowsInPlace(old(rt.cells), first) then 0 else 1
    ensures IsPreds(rt.cells, out) && GrowsInPlace(rt.cells, out)
    ensures Items(rt.cells, out) == Items(old(rt.cells), first) + Items(old(rt.cells), second)
    ensures Untouched(old(rt.cells), rt.cells, {out}) && OnlyClosuresGain(old(rt.cells), rt.cells)
  {
    ghost var h := rt.cells;
    var nf, nt := |Items(rt.cells, first)|, |Items(rt.cells, second)|;
    OwnedLives(h, rt.owned, first);
    assert rt.owned == keep + multiset{second} + multiset{first};
    var room := if GrowsInPlace(rt.cells, first) && nf + nt <= rt.cells[first].kind.cap then nf + nt else Room(nf, nt, want);
    out := Open(rt, first, room, keep + multiset{second});
    Append(rt, out, second, h, keep);
  }
}
