/** A heap of reference-counted cells, and the one law that everything done with it must
    keep: the count stored in a cell is the number of its owners. An owner is a slot of
    another cell, or a reference that some running frame holds. */
module RcHeap {

  type Ref = nat

  datatype SeqState = THUNK | RUNNING | DONE | FILTER | FILTERING

  datatype Kind =
    | SeqCell(state: SeqState)   // a lazy cell: slots are the slot and the predicates
    | ConsCell                   // a list cell: head and tail
    | VariantCell(tag: int)      // a constructor with its arguments
    | ArrayCell(cap: nat)        // a growable array: its slots are the used part of a buffer of `cap`
    | ClosureCell(code: nat)
    | BoxCell(payload: int)      // any boxed value with no references of its own

  /** What a slot holds: nothing, an unboxed value, or a reference. */
  datatype Word = Null | Raw(value: int) | Ptr(ref: Ref)

  datatype Cell = Free | Cell(rc: nat, kind: Kind, slots: seq<Word>)

  type Heap = seq<Cell>

  // ---------- owners ----------

  function RefsOf(ws: seq<Word>): seq<Ref> {
    if ws == [] then [] else
      var w := ws[|ws|-1];
      RefsOf(ws[..|ws|-1]) + if w.Ptr? then [w.ref] else []
  }

  /** The same without an order. */
  function Ptrs(ws: seq<Word>): multiset<Ref> {
    if ws == [] then multiset{} else Ptrs(ws[..|ws|-1]) + PtrOf(ws[|ws|-1])
  }

  lemma {:induction false} RefsPtrs(ws: seq<Word>)
    ensures multiset(RefsOf(ws)) == Ptrs(ws)
  {
    if ws != [] { RefsPtrs(ws[..|ws|-1]); }
  }

  function PtrOf(w: Word): multiset<Ref> {
    if w.Ptr? then multiset{w.ref} else multiset{}
  }

  function Slots(c: Cell): seq<Word> {
    if c.Free? then [] else c.slots
  }

  /** How many slots of the heap hold a reference to `x`. */
  function Out(h: Heap, x: Ref): nat {
    if h == [] then 0 else Out(h[..|h|-1], x) + Ptrs(Slots(h[|h|-1]))[x]
  }

  predicate Live(h: Heap, r: Ref) {
    r < |h| && h[r].Cell?
  }

  function Owners(h: Heap, owned: multiset<Ref>, r: Ref): nat {
    Out(h, r) + owned[r]
  }

  function Count(h: Heap, r: Ref): nat {
    if Live(h, r) then h[r].rc else 0
  }

  /** Counts equal owners: no owner dangles, and a cell without owners has been freed. */
  ghost predicate Counted(h: Heap, owned: multiset<Ref>) {
    && (forall r: Ref :: Count(h, r) == Owners(h, owned, r))
    && (forall r: Ref :: Live(h, r) ==> 0 < h[r].rc)
  }

  lemma OwnedLives(h: Heap, owned: multiset<Ref>, r: Ref)
    requires Counted(h, owned) && (r in owned || Out(h, r) > 0)
    ensures Live(h, r) && h[r].rc == Owners(h, owned, r)
  {
    assert Count(h, r) == Owners(h, owned, r);
  }

  /** What a live cell refers to is live. */
  lemma SlotLives(h: Heap, owned: multiset<Ref>, r: Ref, i: nat)
    requires Counted(h, owned) && Live(h, r) && i < |h[r].slots| && h[r].slots[i].Ptr?
    ensures Live(h, h[r].slots[i].ref)
  {
    SlotOwns(h, r, i);
    OwnedLives(h, owned, h[r].slots[i].ref);
  }

  lemma {:induction false} PtrsAppend(a: seq<Word>, b: seq<Word>)
    ensures Ptrs(a + b) == Ptrs(a) + Ptrs(b)
  {
    if b == [] {
      assert a + b == a;
    } else {
      assert (a + b)[..|a + b| - 1] == a + b[..|b| - 1];
      PtrsAppend(a, b[..|b| - 1]);
    }
  }

  lemma PtrsOne(w: Word)
    ensures Ptrs([w]) == PtrOf(w)
  {
    assert [w][..0] == [];
  }

  lemma PtrsTwo(v: Word, w: Word)
    ensures Ptrs([v, w]) == PtrOf(v) + PtrOf(w)
  {
    assert [v, w] == [v] + [w];
    PtrsAppend([v], [w]);
    PtrsOne(v);
    PtrsOne(w);
  }

  lemma {:induction false} PtrsUpdate(ws: seq<Word>, i: nat, w: Word, x: Ref)
    requires i < |ws|
    ensures PtrOf(ws[i])[x] <= Ptrs(ws)[x]
    ensures Ptrs(ws[i := w])[x] == Ptrs(ws)[x] - PtrOf(ws[i])[x] + PtrOf(w)[x]
  {
    var ws', init := ws[i := w], ws[..|ws|-1];
    if i < |ws| - 1 {
      PtrsUpdate(init, i, w, x);
      assert ws'[..|ws|-1] == init[i := w];
    } else {
      assert ws'[..|ws|-1] == init;
    }
  }

  /** The same for all references at once, without subtracting. */
  lemma PtrsSwap(ws: seq<Word>, i: nat, w: Word)
    requires i < |ws|
    ensures Ptrs(ws[i := w]) + PtrOf(ws[i]) == Ptrs(ws) + PtrOf(w)
  {
    forall x: Ref ensures (Ptrs(ws[i := w]) + PtrOf(ws[i]))[x] == (Ptrs(ws) + PtrOf(w))[x] {
      PtrsUpdate(ws, i, w, x);
    }
  }

  lemma {:induction false} OutSplit(a: Heap, b: Heap, x: Ref)
    ensures Out(a + b, x) == Out(a, x) + Out(b, x)
  {
    if b == [] {
      assert a + b == a;
    } else {
      assert (a + b)[..|a + b| - 1] == a + b[..|b| - 1];
      OutSplit(a, b[..|b| - 1], x);
    }
  }

  lemma OutOne(c: Cell, x: Ref)
    ensures Out([c], x) == Ptrs(Slots(c))[x]
  {
    assert [c][..0] == [];
  }

  lemma OutAround(a: Heap, c: Cell, b: Heap, x: Ref)
    ensures Out(a + [c] + b, x) == Out(a, x) + Ptrs(Slots(c))[x] + Out(b, x)
  {
    OutSplit(a + [c], b, x);
    OutSplit(a, [c], x);
    OutOne(c, x);
  }

  lemma OutUpdate(h: Heap, r: Ref, c: Cell, x: Ref)
    requires r < |h|
    ensures Ptrs(Slots(h[r]))[x] <= Out(h, x)
    ensures Out(h[r := c], x) == Out(h, x) - Ptrs(Slots(h[r]))[x] + Ptrs(Slots(c))[x]
  {
    assert h == h[..r] + [h[r]] + h[r + 1..];
    assert h[r := c] == h[..r] + [c] + h[r + 1..];
    OutAround(h[..r], h[r], h[r + 1..], x);
    OutAround(h[..r], c, h[r + 1..], x);
  }

  lemma OutAppend(h: Heap, c: Cell, x: Ref)
    ensures Out(h + [c], x) == Out(h, x) + Ptrs(Slots(c))[x]
  {
    assert (h + [c])[..|h|] == h;
  }

  /** A reference in a slot is counted among the owners of what it refers to. */
  lemma SlotOwns(h: Heap, r: Ref, i: nat)
    requires Live(h, r) && i < |h[r].slots| && h[r].slots[i].Ptr?
    ensures 0 < Ptrs(h[r].slots)[h[r].slots[i].ref] <= Out(h, h[r].slots[i].ref)
  {
    var x := h[r].slots[i].ref;
    PtrsUpdate(h[r].slots, i, Null, x);
    OutUpdate(h, r, Free, x);
  }

  // ---------- what a heap operation leaves alone ----------

  /** The same cell, but for its count. */
  predicate Alike(c: Cell, d: Cell) {
    c.Cell? && d.Cell? && c.kind == d.kind && c.slots == d.slots
  }

  /** Nothing was written: cells were freed, or their counts changed. */
  ghost predicate OnlyCounts(h: Heap, h': Heap) {
    && |h| == |h'|
    && forall r: Ref :: Live(h', r) ==> Live(h, r) && Alike(h[r], h'[r])
  }

  /** Freeing cells adds no owners. */
  lemma {:induction false} OutShrinks(h: Heap, h': Heap, x: Ref)
    requires OnlyCounts(h, h')
    ensures Out(h', x) <= Out(h, x)
  {
    if h != [] {
      var n := |h| - 1;
      forall r: Ref | Live(h'[..n], r) ensures Live(h[..n], r) && Alike(h[..n][r], h'[..n][r]) {
        assert Live(h', r);
      }
      OutShrinks(h[..n], h'[..n], x);
      assert h'[n].Cell? ==> Live(h', n);
      assert Ptrs(Slots(h'[n])) == Ptrs(Slots(h[n])) || h'[n].Free?;
    }
  }

  /** A cell that the frame alone owns is still the frame's alone after others are freed. */
  lemma StillUnique(h: Heap, owned: multiset<Ref>, h': Heap, owned': multiset<Ref>, x: Ref)
    requires Counted(h, owned) && Counted(h', owned') && OnlyCounts(h, h')
    requires Live(h, x) && h[x].rc == 1 && owned[x] == owned'[x] == 1
    ensures Live(h', x) && h'[x] == h[x]
  {
    OwnedLives(h, owned, x);
    OwnedLives(h', owned', x);
    OutShrinks(h, h', x);
  }

  function LiveCount(h: Heap): nat {
    if h == [] then 0 else LiveCount(h[..|h|-1]) + if h[|h|-1].Cell? then 1 else 0
  }

  lemma {:induction false} LiveCountUpdate(h: Heap, r: Ref, c: Cell)
    requires r < |h|
    ensures LiveCount(h[r := c]) == LiveCount(h) - (if h[r].Cell? then 1 else 0) + (if c.Cell? then 1 else 0)
  {
    var h' := h[r := c];
    if r < |h| - 1 {
      LiveCountUpdate(h[..|h|-1], r, c);
      assert h'[..|h|-1] == h[..|h|-1][r := c];
    } else {
      assert h'[..|h|-1] == h[..|h|-1];
    }
  }

  function Rc(c: Cell): nat {
    if c.Cell? then c.rc else 0
  }

  /** Rewriting cell `r` from `was` to `now` keeps the books for `x` when the frame's
      references change along. */
  ghost predicate Settled(owned: multiset<Ref>, was: Cell, owned': multiset<Ref>, now: Cell, r: Ref, x: Ref) {
    owned'[x] + Ptrs(Slots(now))[x] + (if x == r then Rc(was) else 0)
      == owned[x] + Ptrs(Slots(was))[x] + (if x == r then Rc(now) else 0)
  }

  lemma ChangeKeeps(h: Heap, owned: multiset<Ref>, r: Ref, c: Cell, owned': multiset<Ref>)
    requires Counted(h, owned) && Live(h, r) && (c.Cell? ==> c.rc > 0)
    requires forall x: Ref :: Settled(owned, h[r], owned', c, r, x)
    ensures Counted(h[r := c], owned')
  {
    var h' := h[r := c];
    forall x: Ref ensures Count(h', x) == Owners(h', owned', x) { ChangeAt(h, owned, r, c, owned', x); }
    forall x: Ref ensures Live(h', x) ==> 0 < h'[x].rc { assert x != r ==> Live(h', x) == Live(h, x); }
  }

  lemma ChangeAt(h: Heap, owned: multiset<Ref>, r: Ref, c: Cell, owned': multiset<Ref>, x: Ref)
    requires Counted(h, owned) && Live(h, r)
    requires Settled(owned, h[r], owned', c, r, x)
    ensures Count(h[r := c], x) == Owners(h[r := c], owned', x)
  {
    OutUpdate(h, r, c, x);
    assert Count(h, x) == Owners(h, owned, x);
    assert Count(h[r := c], x) == Count(h, x) + if x == r then Rc(c) - Rc(h[r]) else 0;
  }

  lemma AllocKeeps(h: Heap, owned: multiset<Ref>, c: Cell)
    requires Counted(h, owned) && c.Cell? && c.rc == 1 && Ptrs(c.slots) <= owned
    ensures Counted(h + [c], owned - Ptrs(c.slots) + multiset{|h|})
  {
    var h', owned' := h + [c], owned - Ptrs(c.slots) + multiset{|h|};
    forall x: Ref ensures Count(h', x) == Owners(h', owned', x) {
      OutAppend(h, c, x);
      assert Count(h, x) == Owners(h, owned, x);
      assert Ptrs(c.slots)[x] <= owned[x];
      assert (owned - Ptrs(c.slots))[x] == owned[x] - Ptrs(c.slots)[x];
      if x == |h| { assert !Live(h, x); }
    }
  }

  /** The cell at `x` after one of its references is given up. */
  function Released(h: Heap, x: Ref): Heap
    requires Live(h, x)
  {
    h[x := if h[x].rc > 1 then h[x].(rc := h[x].rc - 1) else Free]
  }

  function Orphans(h: Heap, x: Ref): seq<Ref>
    requires Live(h, x)
  {
    if h[x].rc > 1 then [] else RefsOf(h[x].slots)
  }

  lemma ReleaseKeeps(h: Heap, keep: multiset<Ref>, x: Ref)
    requires Counted(h, keep + multiset{x}) && Live(h, x)
    ensures Counted(Released(h, x), keep + multiset(Orphans(h, x)))
    ensures OnlyCounts(h, Released(h, x))
    ensures LiveCount(Released(h, x)) == LiveCount(h) - if h[x].rc > 1 then 0 else 1
  {
    LiveCountUpdate(h, x, Released(h, x)[x]);
    RefsPtrs(h[x].slots);
    ChangeKeeps(h, keep + multiset{x}, x, Released(h, x)[x], keep + multiset(Orphans(h, x)));
  }

  /** The heap after the references in `pending` are given up, and all that goes with them. */
  function Drained(h: Heap, pending: seq<Ref>): Heap
    decreases LiveCount(h), |pending|
  {
    if pending == [] || !Live(h, pending[|pending| - 1]) then h else
      var x, rest := pending[|pending| - 1], pending[..|pending| - 1];
      LiveCountReleased(h, x);
      Drained(Released(h, x), rest + Orphans(h, x))
  }

  lemma LiveCountReleased(h: Heap, x: Ref)
    requires Live(h, x)
    ensures LiveCount(Released(h, x)) == LiveCount(h) - if h[x].rc > 1 then 0 else 1
    ensures h[x].rc > 1 ==> Orphans(h, x) == []
  {
    LiveCountUpdate(h, x, Released(h, x)[x]);
  }

  lemma {:induction false} DrainedBooks(h: Heap, keep: multiset<Ref>, pending: seq<Ref>)
    requires Counted(h, keep + multiset(pending))
    ensures Counted(Drained(h, pending), keep) && OnlyCounts(h, Drained(h, pending))
    decreases LiveCount(h), |pending|
  {
    if pending == [] {
      assert keep + multiset(pending) == keep;
    } else {
      var x, rest := pending[|pending| - 1], pending[..|pending| - 1];
      assert pending == rest + [x];
      assert keep + multiset(pending) == (keep + multiset(rest)) + multiset{x};
      OwnedLives(h, keep + multiset(pending), x);
      ReleaseKeeps(h, keep + multiset(rest), x);
      LiveCountReleased(h, x);
      assert (keep + multiset(rest)) + multiset(Orphans(h, x)) == keep + multiset(rest + Orphans(h, x));
      DrainedBooks(Released(h, x), keep, rest + Orphans(h, x));
    }
  }

  class Runtime {
    var cells: Heap
    /** The references that running frames own. */
    ghost var owned: multiset<Ref>

    ghost predicate Valid()
      reads this
    {
      Counted(cells, owned)
    }

    constructor ()
      ensures cells == [] && owned == multiset{} && Valid()
    {
      cells, owned := [], multiset{};
    }

    method CheckUnique(r: Ref) returns (unique: bool)
      requires Valid() && Live(cells, r)
      ensures unique <==> Owners(cells, owned, r) == 1
      ensures unique <==> cells[r].rc == 1
    {
      assert Count(cells, r) == Owners(cells, owned, r);
      unique := cells[r].rc == 1;
    }

    method Incref(r: Ref)
      requires Valid() && Live(cells, r)
      modifies this
      ensures Valid() && owned == old(owned) + multiset{r}
      ensures cells == old(cells)[r := old(cells)[r].(rc := old(cells)[r].rc + 1)]
    {
      ChangeKeeps(cells, owned, r, cells[r].(rc := cells[r].rc + 1), owned + multiset{r});
      cells := cells[r := cells[r].(rc := cells[r].rc + 1)];
      owned := owned + multiset{r};
    }

    /** A new cell, owned by the frame, that takes over the references in `slots`. */
    method Alloc(kind: Kind, slots: seq<Word>, ghost keep: multiset<Ref>) returns (r: Ref)
      requires Valid() && owned == keep + Ptrs(slots)
      modifies this
      ensures Valid() && owned == keep + multiset{r}
      ensures r == |old(cells)| && cells == old(cells) + [Cell(1, kind, slots)]
    {
      r := |cells|;
      assert owned - Ptrs(slots) == keep;
      AllocKeeps(cells, owned, Cell(1, kind, slots));
      cells := cells + [Cell(1, kind, slots)];
      owned := keep + multiset{r};
    }

    /** A plain write of the fields of a cell: references move between the cell and the frame,
        and none is gained or lost. */
    method Write(r: Ref, kind: Kind, slots: seq<Word>, ghost now: multiset<Ref>)
      requires Valid() && Live(cells, r)
      requires owned + Ptrs(cells[r].slots) == now + Ptrs(slots)
      modifies this
      ensures Valid() && owned == now
      ensures cells == old(cells)[r := Cell(old(cells)[r].rc, kind, slots)]
    {
      forall x: Ref ensures Settled(owned, cells[r], now, Cell(cells[r].rc, kind, slots), r, x) {
        assert (owned + Ptrs(cells[r].slots))[x] == (now + Ptrs(slots))[x];
      }
      ChangeKeeps(cells, owned, r, Cell(cells[r].rc, kind, slots), now);
      owned := now;
      cells := cells[r := Cell(cells[r].rc, kind, slots)];
    }

    /** Stores one more reference to `x` behind what the cell `out` already holds. */
    method PushShared(out: Ref, x: Ref)
      requires Valid() && Live(cells, out) && Live(cells, x) && out != x
      modifies this
      ensures Valid() && owned == old(owned)
      ensures cells == old(cells)[x := old(cells)[x].(rc := old(cells)[x].rc + 1)]
        [out := old(cells)[out].(slots := old(cells)[out].slots + [Ptr(x)])]
    {
      var was := cells[out].slots;
      PtrsAppend(was, [Ptr(x)]);
      PtrsOne(Ptr(x));
      ghost var now := owned;
      Incref(x);
      assert owned + Ptrs(was) == now + Ptrs(was + [Ptr(x)]);
      Write(out, cells[out].kind, was + [Ptr(x)], now);
    }

    /** Gives up one of the references in `pending`: the count drops, or the cell is freed
        and what it held becomes pending too. */
    method Release(pending: seq<Ref>, ghost keep: multiset<Ref>) returns (pending': seq<Ref>)
      requires Valid() && pending != [] && owned == keep + multiset(pending)
      modifies this
      ensures Valid() && owned == keep + multiset(pending')
      ensures OnlyCounts(old(cells), cells)
      ensures LiveCount(cells) < LiveCount(old(cells)) || (LiveCount(cells) == LiveCount(old(cells)) && |pending'| < |pending|)
      ensures Live(old(cells), pending[|pending| - 1])
      ensures cells == Released(old(cells), pending[|pending| - 1])
      ensures pending' == pending[..|pending| - 1] + Orphans(old(cells), pending[|pending| - 1])
    {
      var x, rest := pending[|pending| - 1], pending[..|pending| - 1];
      assert pending == rest + [x];
      ghost var others := keep + multiset(rest);
      assert owned == others + multiset{x};
      OwnedLives(cells, owned, x);
      ReleaseKeeps(cells, others, x);
      var orphans := Orphans(cells, x);
      pending' := rest + orphans;
      assert keep + multiset(pending') == others + multiset(orphans);
      owned := others + multiset(orphans);
      cells := Released(cells, x);
    }

    /** Gives up one reference. A cell that loses its last owner is freed, and gives up the
        references it held in turn. */
    method Decref(r: Ref)
      requires Valid() && r in owned
      modifies this
      ensures Valid() && owned == old(owned) - multiset{r}
      ensures OnlyCounts(old(cells), cells)
      ensures Live(old(cells), r) && cells == Drained(old(cells), [r])
      ensures old(cells)[r].rc > 1 || Ptrs(old(cells)[r].slots) == multiset{} ==> cells == Released(old(cells), r)
    {
      ghost var keep := owned - multiset{r};
      OwnedLives(cells, owned, r);
      RefsPtrs(cells[r].slots);
      var pending := Release([r], keep);
      while pending != []
        invariant Valid() && owned == keep + multiset(pending)
        invariant OnlyCounts(old(cells), cells) && Drained(cells, pending) == Drained(old(cells), [r])
        invariant old(cells)[r].rc > 1 || Ptrs(old(cells)[r].slots) == multiset{} ==>
          pending == [] && cells == Released(old(cells), r)
        decreases LiveCount(cells), |pending|
      {
        pending := Release(pending, keep);
      }
    }

    /** The same, stated by what remains. */
    method Drop(r: Ref, ghost keep: multiset<Ref>)
      requires Valid() && owned == keep + multiset{r}
      modifies this
      ensures Valid() && owned == keep && OnlyCounts(old(cells), cells) && Live(old(cells), r)
      ensures old(cells)[r].rc > 1 || Ptrs(old(cells)[r].slots) == multiset{} ==> cells == Released(old(cells), r)
    {
      Decref(r);
    }
  }
}
