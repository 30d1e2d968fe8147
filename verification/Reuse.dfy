/** Rebuilding a matched cell in place. Nobody but the frame can tell it from a fresh cell. */
module Reuse {
  import opened RcHeap
  import opened Values

  // ---------- the children move to their binders ----------

  function Emptied(c: Cell): Cell
    requires c.Cell?
  {
    c.(slots := seq(|c.slots|, i => Null))
  }

  lemma {:induction false} NothingHeld(n: nat)
    ensures Ptrs(seq(n, i => Null)) == multiset{}
  {
    if n > 0 {
      NothingHeld(n - 1);
      assert seq(n, i => Null)[..n - 1] == seq(n - 1, i => Null);
    }
  }

  /** The state in the arm that rebuilds: the children of the unshared cell `scr` belong to
      their binders already, whatever the cell's slots still show. */
  ghost predicate Borrowed(h: Heap, owned: multiset<Ref>, scr: Ref) {
    && Live(h, scr) && h[scr].rc == 1 && scr in owned && Out(h, scr) == 0
    && Counted(h[scr := Emptied(h[scr])], owned)
  }

  /** Binding without counting: the references move from the slots to the binders. */
  lemma BorrowChildren(h: Heap, keep: multiset<Ref>, scr: Ref)
    requires Counted(h, keep + multiset{scr}) && Live(h, scr) && h[scr].rc == 1
    ensures Borrowed(h, keep + multiset{scr} + Ptrs(h[scr].slots), scr)
  {
    NothingHeld(|h[scr].slots|);
    assert Count(h, scr) == Owners(h, keep + multiset{scr}, scr);
    ChangeKeeps(h, keep + multiset{scr}, scr, Emptied(h[scr]), keep + multiset{scr} + Ptrs(h[scr].slots));
  }

  /** A cell whose slots have all been given up is in that state too. */
  lemma GivenUp(h: Heap, owned: multiset<Ref>, scr: Ref)
    requires Counted(h, owned) && Live(h, scr) && h[scr].rc == 1 && scr in owned
    requires Ptrs(h[scr].slots) == multiset{}
    ensures Borrowed(h, owned, scr)
  {
    NothingHeld(|h[scr].slots|);
    assert Count(h, scr) == Owners(h, owned, scr);
    ChangeKeeps(h, owned, scr, Emptied(h[scr]), owned);
  }

  /** The first slot that holds `w`. */
  function FirstSlot(ws: seq<Word>, w: Word): (i: nat)
    requires w in ws
    ensures i < |ws| && ws[i] == w && forall j :: 0 <= j < i ==> ws[j] != w
  {
    if ws[0] == w then 0 else
      assert ws == [ws[0]] + ws[1..];
      FirstSlot(ws[1..], w) + 1
  }

  lemma {:induction false} HeldSomewhere(ws: seq<Word>, x: Ref)
    requires Ptrs(ws)[x] > 0
    ensures Ptr(x) in ws
  {
    if ws[|ws| - 1] != Ptr(x) { HeldSomewhere(ws[..|ws| - 1], x); }
  }

  /** The cell after its child `w` is taken. */
  function Taken(h: Heap, cell: Ref, w: Word): Heap
    requires Live(h, cell) && (w.Ptr? ==> Live(h, w.ref) && w in h[cell].slots)
  {
    if !w.Ptr? then h
    else if h[cell].rc != 1 then h[w.ref := h[w.ref].(rc := h[w.ref].rc + 1)]
    else h[cell := h[cell].(slots := h[cell].slots[FirstSlot(h[cell].slots, w) := Null])]
  }

  method Scan(kind: Kind, slots: seq<Word>, child: Word) returns (i: nat)
    requires child in slots && (kind.ConsCell? ==> |slots| == 2)
    ensures i == FirstSlot(slots, child)
  {
    i := 0;
    ghost var first := FirstSlot(slots, child);
    if kind.ConsCell? {
      if slots[0] != child { i := 1; }
    } else {
      while slots[i] != child
        invariant i <= first
        decreases first - i
      {
        i := i + 1;
      }
    }
  }

  method TakeSlot(rt: Runtime, cell: Ref, child: Word) returns (taken: Word)
    requires rt.Valid() && Live(rt.cells, cell)
    requires rt.cells[cell].kind.VariantCell? || (rt.cells[cell].kind.ConsCell? && |rt.cells[cell].slots| == 2)
    requires child.Ptr? ==> child in rt.cells[cell].slots && Live(rt.cells, child.ref)
    modifies rt
    ensures rt.Valid() && taken == child && rt.owned == old(rt.owned) + PtrOf(child)
    ensures rt.cells == Taken(old(rt.cells), cell, child)
  {
    taken := child;
    if !child.Ptr? { return; }
    var unique := rt.CheckUnique(cell);
    if !unique { rt.Incref(child.ref); return; }
    var slots := rt.cells[cell].slots;
    var i := Scan(rt.cells[cell].kind, slots, child);
    TakenBalances(slots, i, rt.owned);
    rt.Write(cell, rt.cells[cell].kind, slots[i := Null], rt.owned + PtrOf(child));
  }

  lemma TakenBalances(ws: seq<Word>, i: nat, owned: multiset<Ref>)
    requires i < |ws| && ws[i].Ptr?
    ensures Ptrs(ws) == Ptrs(ws[i := Null]) + PtrOf(ws[i])
    ensures owned + Ptrs(ws) == (owned + PtrOf(ws[i])) + Ptrs(ws[i := Null])
  {
    forall x: Ref ensures Ptrs(ws)[x] == (Ptrs(ws[i := Null]) + PtrOf(ws[i]))[x] {
      PtrsUpdate(ws, i, Null, x);
    }
  }

  lemma OthersStayAlike(h: Heap, h1: Heap, h2: Heap, cell: Ref)
    requires OthersAlike(h, h1, cell) && OthersAlike(h1, h2, cell)
    ensures OthersAlike(h, h2, cell)
  {
    forall r: Ref | r != cell ensures Agree(h, h2, r) && Agree(h2, h, r) {
      assert Agree(h, h1, r) && Agree(h1, h, r) && Agree(h1, h2, r) && Agree(h2, h1, r);
    }
  }

  /** `children` were taken from `cell`: out of its slots when it has one owner, and by
      counting when it has more. */
  ghost predicate TakenFrom(h: Heap, h': Heap, cell: Ref, children: seq<Word>)
    requires Live(h, cell)
  {
    && OthersAlike(h, h', cell) && Live(h', cell)
    && h'[cell].kind == h[cell].kind && h'[cell].rc == h[cell].rc && |h'[cell].slots| == |h[cell].slots|
    && (h[cell].rc > 1 ==> h'[cell].slots == h[cell].slots)
    && (h[cell].rc == 1 ==> Ptrs(h'[cell].slots) + Ptrs(children) == Ptrs(h[cell].slots))
  }

  predicate HasChildren(c: Cell) {
    c.Cell? && (c.kind.VariantCell? || (c.kind.ConsCell? && |c.slots| == 2))
  }

  /** Takes any choice of a cell's children, also one that occurs twice. */
  method TakeChildren(rt: Runtime, cell: Ref, children: seq<Word>)
    requires rt.Valid() && Live(rt.cells, cell) && HasChildren(rt.cells[cell])
    requires Ptrs(children) <= Ptrs(rt.cells[cell].slots) && cell !in Ptrs(rt.cells[cell].slots)
    modifies rt
    ensures rt.Valid() && rt.owned == old(rt.owned) + Ptrs(children)
    ensures TakenFrom(old(rt.cells), rt.cells, cell, children)
  {
    var i := 0;
    ghost var h, now := rt.cells, rt.owned;
    TakenNone(h, cell, children);
    while i < |children|
      invariant i <= |children| && rt.Valid() && rt.owned == now + Ptrs(children[..i])
      invariant TakenFrom(h, rt.cells, cell, children[..i])
    {
      TakeNext(rt, cell, children, i, h, now);
      i := i + 1;
    }
    assert children[..i] == children;
  }

  lemma TakenNone(h: Heap, cell: Ref, children: seq<Word>)
    requires Live(h, cell)
    ensures TakenFrom(h, h, cell, children[..0]) && Ptrs(children[..0]) == multiset{}
  {
    assert children[..0] == [];
    forall r: Ref | r != cell ensures Agree(h, h, r) {
    }
  }

  method TakeNext(rt: Runtime, cell: Ref, children: seq<Word>, i: nat, ghost h: Heap, ghost now: multiset<Ref>)
    requires rt.Valid() && Live(h, cell) && HasChildren(h[cell])
    requires i < |children| && Ptrs(children) <= Ptrs(h[cell].slots) && cell !in Ptrs(h[cell].slots)
    requires rt.owned == now + Ptrs(children[..i]) && TakenFrom(h, rt.cells, cell, children[..i])
    modifies rt
    ensures rt.Valid() && rt.owned == now + Ptrs(children[..i + 1])
    ensures TakenFrom(h, rt.cells, cell, children[..i + 1])
  {
    StillHeld(rt.cells, rt.owned, h, children, cell, i);
    TakenStep(h, rt.cells, cell, children, i);
    var _ := TakeSlot(rt, cell, children[i]);
  }

  /** The next child to take is still in the cell. */
  lemma StillHeld(h': Heap, owned: multiset<Ref>, h: Heap, children: seq<Word>, cell: Ref, i: nat)
    requires Counted(h', owned) && Live(h, cell) && i < |children| && Ptrs(children) <= Ptrs(h[cell].slots)
    requires TakenFrom(h, h', cell, children[..i]) && cell !in Ptrs(h[cell].slots)
    ensures children[i].Ptr? ==> children[i] in h'[cell].slots && Live(h', children[i].ref) && children[i] != Ptr(cell)
  {
    if children[i].Ptr? {
      var x := children[i].ref;
      NotYetTaken(Ptrs(h[cell].slots), children, i);
      if h'[cell].rc == 1 {
        assert (Ptrs(h'[cell].slots) + Ptrs(children[..i]))[x] == Ptrs(h[cell].slots)[x];
      }
      HeldSomewhere(h'[cell].slots, x);
      OutUpdate(h', cell, Free, x);
      OwnedLives(h', owned, x);
    }
  }

  lemma NotYetTaken(all: multiset<Ref>, children: seq<Word>, i: nat)
    requires i < |children| && children[i].Ptr? && Ptrs(children) <= all
    ensures Ptrs(children[..i])[children[i].ref] < all[children[i].ref]
  {
    var x := children[i].ref;
    assert children == children[..i] + children[i..];
    PtrsAppend(children[..i], children[i..]);
    PtrsUpdate(children[i..], 0, Null, x);
    assert Ptrs(children)[x] <= all[x];
  }

  lemma TakenStep(h: Heap, h': Heap, cell: Ref, children: seq<Word>, i: nat)
    requires Live(h, cell) && i < |children| && TakenFrom(h, h', cell, children[..i])
    requires children[i].Ptr? ==> children[i] in h'[cell].slots && Live(h', children[i].ref) && children[i] != Ptr(cell)
    ensures TakenFrom(h, Taken(h', cell, children[i]), cell, children[..i + 1])
    ensures Ptrs(children[..i]) + PtrOf(children[i]) == Ptrs(children[..i + 1])
  {
    var w, before := children[i], children[..i];
    assert children[..i + 1] == before + [w];
    TakenAlike(h', cell, w);
    TakenBoth(h, h', Taken(h', cell, w), cell, before, [w]);
    PtrsOne(w);
    PtrsAppend(before, [w]);
  }

  lemma TakenBoth(h: Heap, h1: Heap, h2: Heap, cell: Ref, a: seq<Word>, b: seq<Word>)
    requires Live(h, cell) && TakenFrom(h, h1, cell, a) && TakenFrom(h1, h2, cell, b)
    ensures TakenFrom(h, h2, cell, a + b)
  {
    OthersStayAlike(h, h1, h2, cell);
    PtrsAppend(a, b);
    if h[cell].rc == 1 { AddTaken(Ptrs(h2[cell].slots), Ptrs(a), Ptrs(b), Ptrs(h1[cell].slots), Ptrs(h[cell].slots)); }
  }

  lemma AddTaken(left: multiset<Ref>, a: multiset<Ref>, b: multiset<Ref>, mid: multiset<Ref>, all: multiset<Ref>)
    requires left + b == mid && mid + a == all
    ensures left + (a + b) == all
  {
  }

  lemma TakenAlike(h: Heap, cell: Ref, w: Word)
    requires Live(h, cell) && (w.Ptr? ==> w in h[cell].slots && Live(h, w.ref) && w != Ptr(cell))
    ensures TakenFrom(h, Taken(h, cell, w), cell, [w])
  {
    PtrsOne(w);
    var h' := Taken(h, cell, w);
    if w.Ptr? && h[cell].rc == 1 {
      TakenBalances(h[cell].slots, FirstSlot(h[cell].slots, w), multiset{});
    }
    forall r: Ref | r != cell ensures Agree(h, h', r) && Agree(h', h, r) {
      if !w.Ptr? || r != w.ref || h[cell].rc == 1 { assert r < |h| ==> h'[r] == h[r]; }
    }
  }

  /** Nobody who does not hold the cell can see that its children were taken, and when others
      hold it nobody at all can. */
  lemma TakingUnseen(h: Heap, owned: multiset<Ref>, h': Heap, owned': multiset<Ref>, cell: Ref, w: Word, v: Val)
    requires Counted(h, owned) && Counted(h', owned') && OthersAlike(h, h', cell)
    requires Live(h, cell) && Live(h', cell) && cell in owned && cell in owned' && h'[cell].rc == h[cell].rc
    requires if h[cell].rc == 1 then w != Ptr(cell) else Alike(h[cell], h'[cell])
    ensures Means(h, w, v) <==> Means(h', w, v)
  {
    assert Count(h, cell) == Owners(h, owned, cell);
    assert Count(h', cell) == Owners(h', owned', cell);
    if h[cell].rc == 1 {
      HiddenWrite(h, h', cell, w, v);
    } else {
      var dead := |h|;
      assert Count(h, dead) == Owners(h, owned, dead);
      assert Count(h', dead) == Owners(h', owned', dead);
      if w != Ptr(dead) { HiddenWrite(h, h', dead, w, v); }
    }
  }

  // ---------- rebuilding ----------

  /** `r` is the node with these slots, and every value that `keep` refers to is what it was. */
  ghost predicate Rebuilt(h: Heap, h': Heap, keep: multiset<Ref>, kind: Kind, slots: seq<Word>, r: Ref) {
    && (forall v :: Means(h', Ptr(r), v) <==> v.Node? && v.kind == kind && AllMean(h, slots, v.children))
    && (forall x: Ref, v :: x in keep ==> (Means(h, Ptr(x), v) <==> Means(h', Ptr(x), v)))
  }

  /** The fields of `scr` written over. */
  function Overwritten(h: Heap, scr: Ref, kind: Kind, slots: seq<Word>): Heap
    requires Live(h, scr)
  {
    h[scr := Cell(h[scr].rc, kind, slots)]
  }

  lemma OverwriteCounts(h: Heap, keep: multiset<Ref>, scr: Ref, kind: Kind, slots: seq<Word>)
    requires Borrowed(h, keep + multiset{scr} + Ptrs(slots), scr)
    ensures Counted(Overwritten(h, scr, kind, slots), keep + multiset{scr})
  {
    var h0, owned := h[scr := Emptied(h[scr])], keep + multiset{scr} + Ptrs(slots);
    var c := Cell(h[scr].rc, kind, slots);
    NothingHeld(|h[scr].slots|);
    forall x: Ref ensures Settled(owned, h0[scr], keep + multiset{scr}, c, scr, x) {
      assert owned[x] == (keep + multiset{scr})[x] + Ptrs(slots)[x];
    }
    ChangeKeeps(h0, owned, scr, c, keep + multiset{scr});
    assert h0[scr := c] == Overwritten(h, scr, kind, slots);
  }

  /** The frame is the only one to refer to the cell, before and after. */
  lemma OverwriteAlone(h: Heap, keep: multiset<Ref>, scr: Ref, kind: Kind, slots: seq<Word>)
    requires Borrowed(h, keep + multiset{scr} + Ptrs(slots), scr)
    ensures scr !in keep && Ptrs(slots)[scr] == 0 && Out(Overwritten(h, scr, kind, slots), scr) == 0
  {
    var h0, owned := h[scr := Emptied(h[scr])], keep + multiset{scr} + Ptrs(slots);
    assert Count(h0, scr) == Owners(h0, owned, scr);
    assert Count(h0, scr) == 1 && owned[scr] == keep[scr] + 1 + Ptrs(slots)[scr];
    OutUpdate(h, scr, Cell(h[scr].rc, kind, slots), scr);
  }

  /** Writing over a cell that only the frame can reach is not seen by anyone. */
  lemma OverwriteHidden(h: Heap, keep: multiset<Ref>, scr: Ref, kind: Kind, slots: seq<Word>, w: Word, v: Val)
    requires Borrowed(h, keep + multiset{scr} + Ptrs(slots), scr) && w != Ptr(scr)
    ensures Means(h, w, v) <==> Means(Overwritten(h, scr, kind, slots), w, v)
  {
    OverwriteAlone(h, keep, scr, kind, slots);
    OverwriteAgrees(h, scr, kind, slots);
    HiddenWrite(h, Overwritten(h, scr, kind, slots), scr, w, v);
  }

  lemma OverwriteAgrees(h: Heap, scr: Ref, kind: Kind, slots: seq<Word>)
    requires Live(h, scr)
    ensures OthersAlike(h, Overwritten(h, scr, kind, slots), scr)
  {
    forall r: Ref | r != scr ensures Agree(h, Overwritten(h, scr, kind, slots), r) && Agree(Overwritten(h, scr, kind, slots), h, r) {
    }
  }

  lemma OverwritePart(h: Heap, keep: multiset<Ref>, scr: Ref, kind: Kind, slots: seq<Word>, i: nat, v: Val)
    requires Borrowed(h, keep + multiset{scr} + Ptrs(slots), scr) && i < |slots|
    ensures Means(h, slots[i], v) <==> Means(Overwritten(h, scr, kind, slots), slots[i], v)
  {
    OverwriteAlone(h, keep, scr, kind, slots);
    PtrsUpdate(slots, i, Null, scr);
    OverwriteHidden(h, keep, scr, kind, slots, slots[i], v);
  }

  lemma OverwriteNode(h: Heap, keep: multiset<Ref>, scr: Ref, kind: Kind, slots: seq<Word>, v: Val)
    requires !kind.SeqCell? && Borrowed(h, keep + multiset{scr} + Ptrs(slots), scr)
    ensures Means(Overwritten(h, scr, kind, slots), Ptr(scr), v) <==> v.Node? && v.kind == kind && AllMean(h, slots, v.children)
  {
    var h' := Overwritten(h, scr, kind, slots);
    if v.Node? && |slots| == |v.children| {
      forall i | 0 <= i < |slots| ensures Means(h, slots[i], v.children[i]) <==> Means(h', slots[i], v.children[i]) {
        OverwritePart(h, keep, scr, kind, slots, i, v.children[i]);
      }
    }
  }

  lemma OverwriteUnseen(h: Heap, keep: multiset<Ref>, scr: Ref, kind: Kind, slots: seq<Word>)
    requires !kind.SeqCell? && Borrowed(h, keep + multiset{scr} + Ptrs(slots), scr)
    ensures Rebuilt(h, Overwritten(h, scr, kind, slots), keep, kind, slots, scr)
  {
    var h' := Overwritten(h, scr, kind, slots);
    OverwriteAlone(h, keep, scr, kind, slots);
    forall v: Val ensures Means(h', Ptr(scr), v) <==> v.Node? && v.kind == kind && AllMean(h, slots, v.children) {
      OverwriteNode(h, keep, scr, kind, slots, v);
    }
    forall x: Ref, v | x in keep ensures Means(h, Ptr(x), v) <==> Means(h', Ptr(x), v) {
      OverwriteHidden(h, keep, scr, kind, slots, Ptr(x), v);
    }
  }

  /** A fresh cell is not seen by anyone either. */
  lemma FreshUnseen(h: Heap, keep: multiset<Ref>, rc: nat, kind: Kind, slots: seq<Word>)
    requires !kind.SeqCell? && Counted(h, keep + Ptrs(slots))
    ensures Rebuilt(h, h + [Cell(rc, kind, slots)], keep, kind, slots, |h|)
  {
    var h' := h + [Cell(rc, kind, slots)];
    forall w: Word, v | w.Ptr? ==> w.ref in keep + Ptrs(slots) ensures Means(h, w, v) <==> Means(h', w, v) {
      if w.Ptr? { OwnedLives(h, keep + Ptrs(slots), w.ref); }
      AppendMean(h, keep + Ptrs(slots), Cell(rc, kind, slots), w, v);
    }
    forall v ensures Means(h', Ptr(|h|), v) <==> v.Node? && v.kind == kind && AllMean(h, slots, v.children) {
      forall i | 0 <= i < |slots| ensures slots[i].Ptr? ==> slots[i].ref in Ptrs(slots) {
        if slots[i].Ptr? { PtrsUpdate(slots, i, Null, slots[i].ref); }
      }
    }
  }

  method ConsReuseMove(rt: Runtime, scr: Ref, head: Word, tail: Word, ghost keep: multiset<Ref>) returns (r: Ref)
    requires rt.owned == keep + multiset{scr} + Ptrs([head, tail])
    requires Borrowed(rt.cells, rt.owned, scr) && rt.cells[scr].kind.ConsCell?
    modifies rt
    ensures rt.Valid() && r == scr && rt.owned == keep + multiset{scr} + multiset{r}
    ensures Rebuilt(old(rt.cells), rt.cells, keep, ConsCell, [head, tail], r)
  {
    OverwriteCounts(rt.cells, keep, scr, ConsCell, [head, tail]);
    OverwriteUnseen(rt.cells, keep, scr, ConsCell, [head, tail]);
    ghost var h := rt.cells;
    rt.cells := rt.cells[scr := Cell(rt.cells[scr].rc, ConsCell, [head, tail])];
    rt.owned := keep + multiset{scr};
    ghost var h' := rt.cells;
    rt.Incref(scr);
    CountOnce(h, h', rt.cells, rt.owned, keep, ConsCell, [head, tail], scr);
    r := scr;
  }

  /** A changed count is not part of any value. */
  lemma CountOnce(h: Heap, h': Heap, h2: Heap, owned: multiset<Ref>, keep: multiset<Ref>, kind: Kind, slots: seq<Word>, r: Ref)
    requires Rebuilt(h, h', keep, kind, slots, r) && OnlyCounts(h', h2) && Counted(h2, owned)
    requires r in owned && keep <= owned
    ensures Rebuilt(h, h2, keep, kind, slots, r)
  {
    forall x: Ref, v | x in owned ensures Means(h', Ptr(x), v) <==> Means(h2, Ptr(x), v) {
      OwnedLives(h2, owned, x);
      if Means(h', Ptr(x), v) { CountsMean(h', h2, owned, Ptr(x), v); }
      if Means(h2, Ptr(x), v) { CountsMeanBack(h', h2, Ptr(x), v); }
    }
  }

  predicate Fits(h: Heap, scr: Ref, n: nat) {
    Live(h, scr) && h[scr].kind.VariantCell? && |h[scr].slots| == n && h[scr].rc == 1
  }

  method VariantReuseMove(rt: Runtime, scr: Ref, tag: int, slots: seq<Word>, ghost keep: multiset<Ref>) returns (r: Ref)
    requires rt.owned == keep + multiset{scr} + Ptrs(slots) && Live(rt.cells, scr)
    requires if Fits(rt.cells, scr, |slots|) then Borrowed(rt.cells, rt.owned, scr) else rt.Valid()
    modifies rt
    ensures rt.Valid() && Rebuilt(old(rt.cells), rt.cells, keep, VariantCell(tag), slots, r)
    ensures if old(rt.cells)[scr].kind.VariantCell? && |old(rt.cells)[scr].slots| == |slots| && old(rt.cells)[scr].rc == 1
      then r == scr && rt.owned == keep + multiset{r}
      else rt.owned == keep + multiset{scr} + multiset{r} && rt.cells == old(rt.cells) + [Cell(1, VariantCell(tag), slots)]
  {
    if rt.cells[scr].kind.VariantCell? && |rt.cells[scr].slots| == |slots| && rt.cells[scr].rc == 1 {
      OverwriteCounts(rt.cells, keep, scr, VariantCell(tag), slots);
      OverwriteUnseen(rt.cells, keep, scr, VariantCell(tag), slots);
      rt.cells := rt.cells[scr := Cell(rt.cells[scr].rc, VariantCell(tag), slots)];
      rt.owned := keep + multiset{scr};
      r := scr;
    } else {
      FreshUnseen(rt.cells, keep + multiset{scr}, 1, VariantCell(tag), slots);
      r := rt.Alloc(VariantCell(tag), slots, keep + multiset{scr});
    }
  }

  // ---------- the arm that rebuilds, as a whole ----------

  /** How an arm that has its children ends: in place when the cell was the frame's alone, and
      by allocating and giving up the cell when it was not. The contract does not tell which. */
  method LeaveArm(rt: Runtime, scr: Ref, unique: bool, tag: int, slots: seq<Word>, ghost keep: multiset<Ref>) returns (r: Ref)
    requires rt.owned == keep + multiset{scr} + Ptrs(slots)
    requires unique ==> Fits(rt.cells, scr, |slots|) && Borrowed(rt.cells, rt.owned, scr)
    requires !unique ==> rt.Valid()
    modifies rt
    ensures rt.Valid() && rt.owned == keep + multiset{r}
    ensures Rebuilt(old(rt.cells), rt.cells, keep, VariantCell(tag), slots, r)
  {
    if unique {
      r := VariantReuseMove(rt, scr, tag, slots, keep);
    } else {
      FreshUnseen(rt.cells, keep + multiset{scr}, 1, VariantCell(tag), slots);
      ghost var h := rt.cells;
      r := rt.Alloc(VariantCell(tag), slots, keep + multiset{scr});
      LetGo(rt, scr, h, VariantCell(tag), slots, r, keep);
    }
  }

  method LeaveConsArm(rt: Runtime, scr: Ref, unique: bool, head: Word, tail: Word, ghost keep: multiset<Ref>) returns (r: Ref)
    requires rt.owned == keep + multiset{scr} + Ptrs([head, tail])
    requires unique ==> Borrowed(rt.cells, rt.owned, scr) && rt.cells[scr].kind.ConsCell?
    requires !unique ==> rt.Valid()
    modifies rt
    ensures rt.Valid() && rt.owned == keep + multiset{r}
    ensures Rebuilt(old(rt.cells), rt.cells, keep, ConsCell, [head, tail], r)
  {
    ghost var h := rt.cells;
    if unique {
      r := ConsReuseMove(rt, scr, head, tail, keep);
    } else {
      FreshUnseen(rt.cells, keep + multiset{scr}, 1, ConsCell, [head, tail]);
      r := rt.Alloc(ConsCell, [head, tail], keep + multiset{scr});
    }
    LetGo(rt, scr, h, ConsCell, [head, tail], r, keep);
  }

  /** The drop of the matched value at the end of the match. */
  method LetGo(rt: Runtime, scr: Ref, ghost h: Heap, ghost kind: Kind, ghost slots: seq<Word>, ghost r: Ref, ghost keep: multiset<Ref>)
    requires rt.Valid() && rt.owned == keep + multiset{scr} + multiset{r} && Rebuilt(h, rt.cells, keep, kind, slots, r)
    modifies rt
    ensures rt.Valid() && rt.owned == keep + multiset{r} && Rebuilt(h, rt.cells, keep, kind, slots, r)
  {
    ghost var h' := rt.cells;
    rt.Drop(scr, keep + multiset{r});
    CountOnce(h, h', rt.cells, rt.owned, keep, kind, slots, r);
  }

  /** Counting before the rebuild is not part of any value either. */
  lemma CountFirst(h: Heap, h1: Heap, owned1: multiset<Ref>, h2: Heap, keep: multiset<Ref>, kind: Kind, slots: seq<Word>, r: Ref)
    requires OnlyCounts(h, h1) && Counted(h1, owned1) && Rebuilt(h1, h2, keep, kind, slots, r)
    requires keep + Ptrs(slots) <= owned1
    ensures Rebuilt(h, h2, keep, kind, slots, r)
  {
    forall w: Word, v | w.Ptr? ==> w.ref in owned1 ensures Means(h, w, v) <==> Means(h1, w, v) {
      if w.Ptr? { OwnedLives(h1, owned1, w.ref); }
      if Means(h, w, v) { CountsMean(h, h1, owned1, w, v); }
      if Means(h1, w, v) { CountsMeanBack(h, h1, w, v); }
    }
    forall i | 0 <= i < |slots| && slots[i].Ptr? ensures slots[i].ref in owned1 { PtrsUpdate(slots, i, Null, slots[i].ref); }
  }

  /** A value does not contain itself. */
  lemma NotItsOwnChild(h: Heap, scr: Ref, xv: Val)
    requires Means(h, Ptr(scr), xv) && Live(h, scr) && !h[scr].kind.SeqCell?
    ensures scr !in Ptrs(h[scr].slots)
  {
    forall i | 0 <= i < |h[scr].slots| ensures h[scr].slots[i] != Ptr(scr) {
      OneValue(h, Ptr(scr), xv.children[i], xv);
      assert Means(h, h[scr].slots[i], xv.children[i]);
    }
    if scr in Ptrs(h[scr].slots) { HeldSomewhere(h[scr].slots, scr); }
  }

  lemma OneValue(h: Heap, w: Word, u: Val, v: Val)
    ensures Means(h, w, u) && Means(h, w, v) ==> u == v
  {
    if Means(h, w, u) && Means(h, w, v) { MeansOnce(h, w, u, v); }
  }

  /** The match arm of a list cell that puts `y` in the place of the head and keeps the tail, as a
      whole. The children are taken, the old head is given up, and the cell is written over or, if
      others see it, given up too. Nobody can tell which. */
  method ConsArm(rt: Runtime, scr: Ref, y: Word, ghost keep: multiset<Ref>, ghost xv: Val) returns (r: Ref)
    requires rt.Valid() && rt.owned == keep + multiset{scr} + PtrOf(y) && IsCons(rt.cells, Ptr(scr)) && Means(rt.cells, Ptr(scr), xv)
    modifies rt
    ensures rt.Valid() && rt.owned == keep + multiset{r}
    ensures Rebuilt(old(rt.cells), rt.cells, keep, ConsCell, [y, old(rt.cells)[scr].slots[1]], r)
  {
    ghost var h, owned := rt.cells, rt.owned;
    var slots := rt.cells[scr].slots;
    var unique := rt.CheckUnique(scr);
    NotItsOwnChild(h, scr, xv);
    TakeChildren(rt, scr, slots);
    ghost var h1, more := rt.cells, keep + multiset{scr} + PtrOf(y) + PtrOf(slots[1]);
    HeadAndTail(slots, keep + multiset{scr} + PtrOf(y));
    GiveUp(rt, slots[0], more);
    if unique { ShellLeft(h, owned, h1, more + PtrOf(slots[0]), rt.cells, rt.owned, scr); }
    TailMoves(y, slots[1], keep + multiset{scr});
    ghost var h2, owned2 := rt.cells, rt.owned;
    r := LeaveConsArm(rt, scr, unique, y, slots[1], keep);
    ghost var built := [y, slots[1]];
    SeenThrough(h, owned, h1, more + PtrOf(slots[0]), h2, owned2, scr, rt.cells, keep, ConsCell, built, r);
  }

  lemma HeadAndTail(slots: seq<Word>, keep: multiset<Ref>)
    requires |slots| == 2
    ensures keep + Ptrs(slots) == keep + PtrOf(slots[1]) + PtrOf(slots[0])
  {
    assert slots == [slots[0], slots[1]];
    PtrsTwo(slots[0], slots[1]);
  }

  lemma TailMoves(y: Word, tail: Word, keep: multiset<Ref>)
    ensures keep + PtrOf(y) + PtrOf(tail) == keep + Ptrs([y, tail])
  {
    PtrsTwo(y, tail);
  }

  method GiveUp(rt: Runtime, w: Word, ghost keep: multiset<Ref>)
    requires rt.Valid() && rt.owned == keep + PtrOf(w)
    modifies rt
    ensures rt.Valid() && rt.owned == keep && OnlyCounts(old(rt.cells), rt.cells)
  {
    if w.Ptr? { rt.Drop(w.ref, keep); }
  }

  /** What is left of an unshared cell whose children were taken. */
  lemma ShellLeft(h: Heap, owned: multiset<Ref>, h1: Heap, owned1: multiset<Ref>, h2: Heap, owned2: multiset<Ref>, scr: Ref)
    requires Counted(h, owned) && Live(h, scr) && h[scr].rc == 1 && scr in owned && scr !in Ptrs(h[scr].slots)
    requires Counted(h1, owned1) && TakenFrom(h, h1, scr, h[scr].slots) && owned1 == owned + Ptrs(h[scr].slots)
    requires Counted(h2, owned2) && OnlyCounts(h1, h2) && owned2 <= owned1 && scr in owned2
    ensures Borrowed(h2, owned2, scr) && h2[scr].kind == h[scr].kind
  {
    assert Count(h, scr) == Owners(h, owned, scr);
    assert owned1[scr] == 1;
    StillUnique(h1, owned1, h2, owned2, scr);
    assert (Ptrs(h1[scr].slots) + Ptrs(h[scr].slots)) - Ptrs(h[scr].slots) == Ptrs(h1[scr].slots);
    GivenUp(h2, owned2, scr);
  }

  /** Taking, counting and then rebuilding is, for everyone else, rebuilding. */
  lemma SeenThrough(h: Heap, owned: multiset<Ref>, h1: Heap, owned1: multiset<Ref>, h2: Heap, owned2: multiset<Ref>, scr: Ref,
                    h3: Heap, keep: multiset<Ref>, kind: Kind, slots: seq<Word>, r: Ref)
    requires Counted(h, owned) && Counted(h1, owned1) && scr in owned && scr in owned1
    requires Live(h, scr) && TakenFrom(h, h1, scr, h[scr].slots) && scr !in Ptrs(h[scr].slots)
    requires Counted(h2, owned2) && OnlyCounts(h1, h2) && Rebuilt(h2, h3, keep, kind, slots, r)
    requires owned2 == keep + multiset{scr} + Ptrs(slots) && Ptrs(slots) <= owned + Ptrs(h[scr].slots) - multiset{scr}
    requires keep + multiset{scr} <= owned
    ensures Rebuilt(h, h3, keep, kind, slots, r)
  {
    CountFirst(h1, h2, owned2, h3, keep, kind, slots, r);
    assert Count(h, scr) == Owners(h, owned, scr);
    forall w: Word, v | h[scr].rc == 1 ==> w != Ptr(scr) ensures Means(h, w, v) <==> Means(h1, w, v) {
      assert 0 < h[scr].rc;
      TakingUnseen(h, owned, h1, owned1, scr, w, v);
    }
    forall i | 0 <= i < |slots| && h[scr].rc == 1 ensures slots[i] != Ptr(scr) {
      if slots[i] == Ptr(scr) { PtrsUpdate(slots, i, Null, scr); }
    }
  }

  /** The same arm for an unboxed head, when nothing in it can exit: the tail moves to its binder
      without counting. */
  method ScalarArm(rt: Runtime, scr: Ref, f: int -> int, ghost keep: multiset<Ref>) returns (r: Ref)
    requires rt.Valid() && rt.owned == keep + multiset{scr} && IsCons(rt.cells, Ptr(scr)) && rt.cells[scr].slots[0].Raw?
    modifies rt
    ensures rt.Valid() && rt.owned == keep + multiset{r}
    ensures Rebuilt(old(rt.cells), rt.cells, keep, ConsCell, NewHead(old(rt.cells)[scr].slots, f), r)
  {
    var head, tail := rt.cells[scr].slots[0], rt.cells[scr].slots[1];
    var unique := rt.CheckUnique(scr);
    var y := Raw(f(head.value));
    HeadSwapped(rt.cells[scr].slots, y);
    if unique {
      BorrowChildren(rt.cells, keep, scr);
      rt.owned := keep + multiset{scr} + Ptrs(rt.cells[scr].slots);
      r := LeaveConsArm(rt, scr, unique, y, tail, keep);
    } else {
      r := ConsArmShared(rt, scr, y, tail, keep);
    }
  }

  function NewHead(slots: seq<Word>, f: int -> int): seq<Word>
    requires |slots| == 2 && slots[0].Raw?
  {
    [Raw(f(slots[0].value)), slots[1]]
  }

  lemma HeadSwapped(slots: seq<Word>, y: Word)
    requires |slots| == 2 && !slots[0].Ptr? && !y.Ptr?
    ensures Ptrs(slots) == Ptrs([y, slots[1]]) == PtrOf(slots[1])
  {
    assert slots == [slots[0], slots[1]];
    PtrsTwo(slots[0], slots[1]);
    PtrsTwo(y, slots[1]);
  }

  /** The arm for a cell that others see: the tail is shared and a cell is allocated. */
  method ConsArmShared(rt: Runtime, scr: Ref, y: Word, tail: Word, ghost keep: multiset<Ref>) returns (r: Ref)
    requires rt.Valid() && rt.owned == keep + multiset{scr} + PtrOf(y)
    requires IsCons(rt.cells, Ptr(scr)) && rt.cells[scr].slots[1] == tail
    modifies rt
    ensures rt.Valid() && rt.owned == keep + multiset{r}
    ensures Rebuilt(old(rt.cells), rt.cells, keep, ConsCell, [y, tail], r)
  {
    ghost var h, slots := rt.cells, [y, tail];
    ShareTail(rt, scr, tail);
    TailMoves(y, tail, keep + multiset{scr});
    ghost var h1, owned1 := rt.cells, rt.owned;
    r := LeaveConsArm(rt, scr, false, y, tail, keep);
    AmongOwned(keep, scr, slots);
    CountFirst(h, h1, owned1, rt.cells, keep, ConsCell, slots, r);
  }

  method ShareTail(rt: Runtime, scr: Ref, tail: Word)
    requires rt.Valid() && IsCons(rt.cells, Ptr(scr)) && rt.cells[scr].slots[1] == tail
    modifies rt
    ensures rt.Valid() && rt.owned == old(rt.owned) + PtrOf(tail) && OnlyCounts(old(rt.cells), rt.cells)
  {
    if tail.Ptr? { SlotLives(rt.cells, rt.owned, scr, 1); }
    Share(rt, tail);
  }

  lemma AmongOwned(keep: multiset<Ref>, scr: Ref, slots: seq<Word>)
    ensures keep + Ptrs(slots) <= keep + multiset{scr} + Ptrs(slots)
  {
  }

  /** A match arm that rebuilds its constructor from the same children in another arrangement:
      the value is the new node, and who else held the old one still sees it. */
  method RearrangeArm(rt: Runtime, scr: Ref, tag: int, slots: seq<Word>, ghost keep: multiset<Ref>) returns (r: Ref)
    requires rt.Valid() && rt.owned == keep + multiset{scr} && Live(rt.cells, scr)
    requires rt.cells[scr].kind.VariantCell? && scr !in Ptrs(rt.cells[scr].slots)
    requires |slots| == |rt.cells[scr].slots| && Ptrs(slots) == Ptrs(rt.cells[scr].slots)
    modifies rt
    ensures rt.Valid() && rt.owned == keep + multiset{r}
    ensures Rebuilt(old(rt.cells), rt.cells, keep, VariantCell(tag), slots, r)
  {
    ghost var h := rt.cells;
    var unique := rt.CheckUnique(scr);
    TakeChildren(rt, scr, slots);
    ghost var h1 := rt.cells;
    if unique { GivenUp(h1, rt.owned, scr); }
    TakenArm(h, h1, scr, slots, keep);
    r := LeaveArm(rt, scr, unique, tag, slots, keep);
  }

  lemma TakenArm(h: Heap, h1: Heap, scr: Ref, slots: seq<Word>, keep: multiset<Ref>)
    requires Counted(h, keep + multiset{scr}) && Counted(h1, keep + multiset{scr} + Ptrs(slots))
    requires Live(h, scr) && TakenFrom(h, h1, scr, slots) && scr !in Ptrs(slots)
    ensures forall i, v :: 0 <= i < |slots| ==> (Means(h, slots[i], v) <==> Means(h1, slots[i], v))
    ensures forall x: Ref, v :: x in keep ==> (Means(h, Ptr(x), v) <==> Means(h1, Ptr(x), v))
  {
    forall w: Word, v | h[scr].rc == 1 ==> w != Ptr(scr) ensures Means(h, w, v) <==> Means(h1, w, v) {
      assert 0 < h[scr].rc;
      TakingUnseen(h, keep + multiset{scr}, h1, keep + multiset{scr} + Ptrs(slots), scr, w, v);
    }
    assert Count(h, scr) == Owners(h, keep + multiset{scr}, scr);
    forall i | 0 <= i < |slots| ensures slots[i] != Ptr(scr) {
      PtrsUpdate(slots, i, Null, scr);
    }
  }
}
