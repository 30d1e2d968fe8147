/** Reading a filter stage. A stage that only the reader sees merges with the stages under it
    and is reused as the stage over the rest; a shared one is read without being changed until
    its step is known. */
module SeqFilter {
  import opened RcHeap
  import opened SeqPreds
  import opened SeqWorld
  import opened SeqMeaning
  import opened SeqAbsorb
  import opened SeqFrames
  import opened SeqReads

  // ---------- the pieces of a read ----------

  /** What applying the predicates to an element comes to. */
  datatype Verdict = Passed | Refused | Quit

  /** Applies the predicates in order until one refuses or exits. Each call consumes a reference
      of its own. */
  method ApplyAll(rt: Runtime, p: Ref, head: Word, w: World) returns (v: Verdict)
    requires rt.Valid() && IsPreds(rt.cells, p) && IsElement(rt.cells, head)
    modifies rt
    ensures rt.Valid() && rt.cells == old(rt.cells) && rt.owned == old(rt.owned)
    ensures v.Passed? ==> Passes(w, Codes(rt.cells, p), Element(rt.cells, head))
    ensures v.Refused? ==> !Passes(w, Codes(rt.cells, p), Element(rt.cells, head))
    ensures v.Quit? <==> Quits(w, Codes(rt.cells, p), Element(rt.cells, head))
  {
    ghost var h, codes, x := rt.cells, Codes(rt.cells, p), Element(rt.cells, head);
    var items := Items(rt.cells, p);
    var i := 0;
    while i < |items|
      invariant 0 <= i <= |items| && rt.Valid() && rt.cells == h && rt.owned == old(rt.owned)
      invariant forall j :: 0 <= j < i ==> w.holds(codes[j], x) && !w.quits(codes[j], x)
    {
      if head.Ptr? { Borrow(rt, head.ref); }
      var code := CodeOf(rt.cells, items[i]);
      assert code == codes[i];
      if w.quits(code, Element(rt.cells, head)) {
        assert QuitsAt(w, codes, x, i);
        return Quit;
      }
      if !w.holds(code, Element(rt.cells, head)) { return Refused; }
      i := i + 1;
    }
    v := Passed;
  }

  /** A reference taken for a call that consumes it. */
  method Borrow(rt: Runtime, x: Ref)
    requires rt.Valid() && Live(rt.cells, x)
    modifies rt
    ensures rt.Valid() && rt.cells == old(rt.cells) && rt.owned == old(rt.owned)
  {
    rt.Incref(x);
    rt.Drop(x, old(rt.owned));
  }

  /** The step of a read with an element, held by the frame. */
  ghost predicate HasStep(h: Heap, step: Ref, tag: int, head: Word, xs: Ref) {
    Live(h, step) && h[step].kind == VariantCell(tag) && h[step].slots == [head, Ptr(xs)]
  }

  /** The heap once the rest has been taken out of a step. */
  function AfterTail(h: Heap, step: Ref, tag: int, head: Word, xs: Ref, unique: bool): Heap
    requires Live(h, step) && Live(h, xs)
  {
    if unique then h[step := Cell(1, VariantCell(tag), [head, Null])] else h[xs := h[xs].(rc := h[xs].rc + 1)]
  }

  /** Takes the rest out of a step: out of the slot if the frame alone sees the step, else a
      reference of its own. */
  method Tail(rt: Runtime, step: Ref, ghost tag: int, ghost head: Word, xs: Ref, ghost keep: multiset<Ref>) returns (unique: bool)
    requires rt.Valid() && rt.owned == keep + multiset{step} && HasStep(rt.cells, step, tag, head, xs)
    requires Live(rt.cells, xs) && xs != step
    modifies rt
    ensures rt.Valid() && rt.owned == keep + multiset{step} + multiset{xs}
    ensures unique <==> old(rt.cells)[step].rc == 1
    ensures rt.cells == AfterTail(old(rt.cells), step, tag, head, xs, unique)
  {
    unique := rt.CheckUnique(step);
    if unique {
      PtrsTwo(rt.cells[step].slots[0], Ptr(xs));
      PtrsTwo(rt.cells[step].slots[0], Null);
      rt.Write(step, rt.cells[step].kind, [rt.cells[step].slots[0], Null], keep + multiset{step} + multiset{xs});
    } else {
      rt.Incref(xs);
    }
  }

  // ---------- small changes within a read ----------

  /** One more reference to a cell that a slot refers to already. */
  lemma FrameIncref(k: Start, h: Heap, owned: multiset<Ref>, mean: seq<Mean>, x: Ref, h': Heap, owned': multiset<Ref>)
    requires InFrame(k, h, owned, mean) && Live(h, x) && Out(h, x) > 0 && owned' == owned + multiset{x}
    requires h' == h[x := h[x].(rc := h[x].rc + 1)] && Counted(h', owned')
    ensures InFrame(k, h', owned', mean)
  {
    OwnedLives(h, owned, x);
    assert k.keep <= owned';
    FrameCounts(k, h, owned, mean, h', owned');
  }

  lemma FrameStep(k: Start, h: Heap, owned: multiset<Ref>, mean: seq<Mean>, step: Ref, c: Cell, owned': multiset<Ref>)
    requires InFrame(k, h, owned, mean) && Live(h, step) && h[step].kind.VariantCell? && h[step].rc == 1 && step in owned
    requires c.Cell? && c.kind.VariantCell? && k.keep + multiset{step} <= owned
    requires Counted(h[step := c], owned') && k.keep <= owned'
    ensures InFrame(k, h[step := c], owned', mean)
  {
    OwnedLives(h, owned, step);
    assert (k.keep + multiset{step})[step] == k.keep[step] + 1 <= owned[step];
    assert mean[step := mean[step]] == mean;
    FrameChange(k, h, owned, mean, step, c, mean[step], owned');
  }

  // ---------- an element that passes ----------

  /** What is at hand once an element has passed: the step without its rest, and the stage
      that is to take its place. */
  ghost predicate AtHand(k: Start, h: Heap, owned: multiset<Ref>, mean: seq<Mean>, tag: int, head: Word, rest: Ref, m: Mean) {
    && InFrame(k, h, owned, mean) && IsElement(h, head) && IsSeq(h, rest)
    && m.xs == [Element(h, head)] + mean[rest].xs && mean[rest].rank < m.rank && (m.calm ==> mean[rest].calm)
  }

  /** The stage for the rest goes into the step, which only the frame sees. */
  method SealInPlace(rt: Runtime, step: Ref, tag: int, head: Word, rest: Ref, ghost k: Start, ghost mean: seq<Mean>, ghost m: Mean)
    requires rt.owned == k.keep + multiset{step} + multiset{rest} && AtHand(k, rt.cells, rt.owned, mean, tag, head, rest, m)
    requires Live(rt.cells, step) && rt.cells[step] == Cell(1, VariantCell(tag), [head, Null])
    modifies rt
    ensures Held(k, rt.cells, rt.owned, mean, step, m)
  {
    ghost var h, owned := rt.cells, rt.owned;
    OwnedLives(h, owned, step);
    PtrsTwo(head, Ptr(rest));
    PtrsTwo(head, Null);
    rt.Write(step, VariantCell(tag), [head, Ptr(rest)], k.keep + multiset{step});
    FrameStep(k, h, owned, mean, step, rt.cells[step], rt.owned);
    SealedStep(h, mean, step, tag, head, rest, m);
  }

  lemma SealedStep(h: Heap, mean: seq<Mean>, step: Ref, tag: int, head: Word, rest: Ref, m: Mean)
    requires Live(h, step) && h[step].kind.VariantCell? && IsElement(h, head) && IsSeq(h, rest) && |mean| == |h|
    requires m.xs == [Element(h, head)] + mean[rest].xs && mean[rest].rank < m.rank && (m.calm ==> mean[rest].calm)
    ensures StepOk(h[step := Cell(1, VariantCell(tag), [head, Ptr(rest)])], mean, step, m)
  {
  }

  /** The stage for the rest goes into a copy of the step. */
  method SealCopy(rt: Runtime, step: Ref, tag: int, head: Word, rest: Ref, ghost k: Start, ghost mean: seq<Mean>, ghost m: Mean)
    returns (cons: Ref, ghost mean': seq<Mean>)
    requires rt.owned == k.keep + multiset{step} + multiset{rest} && AtHand(k, rt.cells, rt.owned, mean, tag, head, rest, m)
    modifies rt
    ensures Held(k, rt.cells, rt.owned, mean', cons, m)
  {
    cons, mean' := Copy(rt, tag, head, rest, k.keep + multiset{step}, k, mean, m);
    assert rt.owned == k.keep + multiset{cons} + multiset{step};
    DiscardBut(rt, step, cons, k, mean', m);
  }

  /** The stage for the rest goes into the step if only the frame sees it, else into a copy. */
  method Seal(rt: Runtime, unique: bool, step: Ref, tag: int, head: Word, rest: Ref, ghost k: Start, ghost mean: seq<Mean>, ghost m: Mean)
    returns (cons: Ref, ghost mean': seq<Mean>)
    requires rt.owned == k.keep + multiset{step} + multiset{rest} && AtHand(k, rt.cells, rt.owned, mean, tag, head, rest, m)
    requires unique ==> Live(rt.cells, step) && rt.cells[step] == Cell(1, VariantCell(tag), [head, Null])
    modifies rt
    ensures Held(k, rt.cells, rt.owned, mean', cons, m)
  {
    if unique {
      SealInPlace(rt, step, tag, head, rest, k, mean, m);
      cons, mean' := step, mean;
    } else {
      cons, mean' := SealCopy(rt, step, tag, head, rest, k, mean, m);
    }
  }

  method Copy(rt: Runtime, tag: int, head: Word, rest: Ref, ghost keep: multiset<Ref>, ghost k: Start, ghost mean: seq<Mean>, ghost m: Mean)
    returns (cons: Ref, ghost mean': seq<Mean>)
    requires k.keep <= keep && rt.owned == keep + multiset{rest} && AtHand(k, rt.cells, rt.owned, mean, tag, head, rest, m)
    modifies rt
    ensures rt.Valid() && rt.owned == keep + multiset{cons} && InFrame(k, rt.cells, rt.owned, mean')
    ensures StepOk(rt.cells, mean', cons, m)
  {
    if head.Ptr? { ShareBox(rt, head.ref, k, mean); }
    cons, mean' := AddStep(rt, tag, head, rest, keep, k, mean, m);
  }

  method ShareBox(rt: Runtime, x: Ref, ghost k: Start, ghost mean: seq<Mean>)
    requires InFrame(k, rt.cells, rt.owned, mean) && Live(rt.cells, x) && rt.cells[x].kind.BoxCell?
    modifies rt
    ensures rt.owned == old(rt.owned) + multiset{x} && InFrame(k, rt.cells, rt.owned, mean)
    ensures rt.cells == old(rt.cells)[x := old(rt.cells)[x].(rc := old(rt.cells)[x].rc + 1)]
  {
    ghost var h, owned := rt.cells, rt.owned;
    rt.Incref(x);
    FrameCounts(k, h, owned, mean, rt.cells, rt.owned);
  }

  method AddStep(rt: Runtime, tag: int, head: Word, rest: Ref, ghost keep: multiset<Ref>, ghost k: Start, ghost mean: seq<Mean>, ghost m: Mean)
    returns (cons: Ref, ghost mean': seq<Mean>)
    requires k.keep <= keep && rt.owned == keep + multiset{rest} + PtrOf(head) && AtHand(k, rt.cells, rt.owned, mean, tag, head, rest, m)
    modifies rt
    ensures rt.Valid() && rt.owned == keep + multiset{cons} && InFrame(k, rt.cells, rt.owned, mean')
    ensures StepOk(rt.cells, mean', cons, m)
  {
    ghost var h, owned := rt.cells, rt.owned;
    PtrsTwo(head, Ptr(rest));
    cons := rt.Alloc(VariantCell(tag), [head, Ptr(rest)], keep);
    mean' := mean + [m];
    FrameAdded(k, h, owned, mean, rt.cells[cons], m, rt.owned);
  }

  /** The rest leaves the step, as far as anyone else can see without a trace. */
  method TakeRest(rt: Runtime, step: Ref, tag: int, head: Word, xs: Ref, ghost keep: multiset<Ref>, ghost k: Start, ghost mean: seq<Mean>)
    returns (unique: bool)
    requires k.keep <= keep && rt.owned == keep + multiset{step} && InFrame(k, rt.cells, rt.owned, mean)
    requires HasStep(rt.cells, step, tag, head, xs) && IsSeq(rt.cells, xs) && IsElement(rt.cells, head)
    modifies rt
    ensures rt.owned == keep + multiset{step} + multiset{xs} && InFrame(k, rt.cells, rt.owned, mean)
    ensures rt.cells == AfterTail(old(rt.cells), step, tag, head, xs, unique)
  {
    ghost var h, owned := rt.cells, rt.owned;
    SlotOwns(h, step, 1);
    OwnedLives(h, owned, xs);
    unique := Tail(rt, step, tag, head, xs, keep);
    if unique {
      FrameStep(k, h, owned, mean, step, rt.cells[step], rt.owned);
    } else {
      FrameIncref(k, h, owned, mean, xs, rt.cells, rt.owned);
    }
  }

  lemma SourceFits(w: World, h: Heap, owned: multiset<Ref>, mean: seq<Mean>, own: Ref, xs: Ref, m: Mean)
    requires Counted(h, owned) && own in owned && |mean| == |h|
    requires BeingRead(h, own) && h[own].rc == 1 && IsSeq(h, xs) && xs != own
    requires Stands(w, Codes(h, h[own].slots[1].ref), mean[xs], m)
    ensures FitsUnseen(w, h, mean, own, Cell(1, SeqCell(FILTER), [Ptr(xs), h[own].slots[1]]), m) && owned[own] == 1
  {
    var c := Cell(1, SeqCell(FILTER), [Ptr(xs), h[own].slots[1]]);
    OwnedLives(h, owned, own);
    KeepsPreds(h, own, c, h[own].slots[1].ref);
    assert StageOk(w, h[own := c], mean[own := m], own);
  }

  /** The stage whose source has left it gets the rest as its new source. */
  method SetSource(rt: Runtime, own: Ref, xs: Ref, ghost keep: multiset<Ref>, ghost k: Start, ghost mean: seq<Mean>, ghost m: Mean)
    requires k.keep <= keep && rt.owned == keep + multiset{own} + multiset{xs} && InFrame(k, rt.cells, rt.owned, mean)
    requires BeingRead(rt.cells, own) && rt.cells[own].rc == 1 && IsSeq(rt.cells, xs) && xs != own
    requires Stands(k.w, Codes(rt.cells, rt.cells[own].slots[1].ref), mean[xs], m)
    modifies rt
    ensures rt.owned == keep + multiset{own} && InFrame(k, rt.cells, rt.owned, mean[own := m])
    ensures rt.cells == old(rt.cells)[own := Cell(1, SeqCell(FILTER), [Ptr(xs), old(rt.cells)[own].slots[1]])]
  {
    ghost var h, owned := rt.cells, rt.owned;
    var p := rt.cells[own].slots[1];
    PtrsTwo(Ptr(xs), p);
    PtrsTwo(Null, p);
    SourceFits(k.w, h, owned, mean, own, xs, m);
    rt.Write(own, SeqCell(FILTER), [Ptr(xs), p], keep + multiset{own});
    assert owned[own] == keep[own] + 1 + multiset{xs}[own] && k.keep[own] <= keep[own];
    FrameChange(k, h, owned, mean, own, rt.cells[own], m, rt.owned);
  }

  ghost function OfRest(w: World, ps: seq<nat>, src: Mean, m: Mean): Mean {
    Mean(Filtered(w, ps, src.xs), src.rank + 1, m.calm)
  }

  /** `m` has the element `x`, which passed, and then what a stage over `src` stands for. */
  ghost predicate StandsBehind(w: World, ps: seq<nat>, x: int, src: Mean, m: Mean) {
    m.xs == [x] + Filtered(w, ps, src.xs) && src.rank + 1 < m.rank && Stands(w, ps, src, OfRest(w, ps, src, m))
  }

  /** The element passes: the stage being read becomes the stage over the rest. */
  method AcceptOwn(rt: Runtime, own: Ref, step: Ref, tag: int, head: Word, xs: Ref, ghost k: Start, ghost mean: seq<Mean>, ghost m: Mean)
    returns (cons: Ref, ghost mean': seq<Mean>)
    requires rt.owned == k.keep + multiset{own} + multiset{step} && InFrame(k, rt.cells, rt.owned, mean) && k.busy == {own}
    requires BeingRead(rt.cells, own) && rt.cells[own].rc == 1
    requires HasStep(rt.cells, step, tag, head, xs) && IsSeq(rt.cells, xs) && IsElement(rt.cells, head)
    requires StandsBehind(k.w, Codes(rt.cells, rt.cells[own].slots[1].ref), Element(rt.cells, head), mean[xs], m)
    modifies rt
    ensures ReadDone(k, rt.cells, rt.owned, mean', cons, m)
  {
    ghost var h, p := rt.cells, rt.cells[own].slots[1].ref;
    NotInSlots(h, rt.owned, own, step, xs);
    var unique := TakeRest(rt, step, tag, head, xs, k.keep + multiset{own}, k, mean);
    SameAfterTail(h, step, tag, head, xs, unique, p);
    assert rt.owned == k.keep + multiset{step} + multiset{own} + multiset{xs};
    cons, mean' := SealOwn(rt, unique, own, step, tag, head, xs, k, mean, m);
  }

  /** The stage being read goes over the rest, and a step ends in it. */
  method SealOwn(rt: Runtime, unique: bool, own: Ref, step: Ref, tag: int, head: Word, xs: Ref, ghost k: Start, ghost mean: seq<Mean>, ghost m: Mean)
    returns (cons: Ref, ghost mean': seq<Mean>)
    requires rt.owned == k.keep + multiset{step} + multiset{own} + multiset{xs} && InFrame(k, rt.cells, rt.owned, mean)
    requires BeingRead(rt.cells, own) && rt.cells[own].rc == 1 && k.busy == {own} && IsSeq(rt.cells, xs) && xs != own
    requires IsElement(rt.cells, head) && (unique ==> Live(rt.cells, step) && rt.cells[step] == Cell(1, VariantCell(tag), [head, Null]))
    requires StandsBehind(k.w, Codes(rt.cells, rt.cells[own].slots[1].ref), Element(rt.cells, head), mean[xs], m)
    modifies rt
    ensures ReadDone(k, rt.cells, rt.owned, mean', cons, m)
  {
    ghost var rest := OfRest(k.w, Codes(rt.cells, rt.cells[own].slots[1].ref), mean[xs], m);
    SetSource(rt, own, xs, k.keep + multiset{step}, k, mean, rest);
    mean' := mean[own := rest];
    NoLongerBusy(k, rt.cells, rt.owned, mean');
    cons, mean' := Seal(rt, unique, step, tag, head, own, k.(busy := {}), mean', m);
  }

  /** A stage that only the frame sees is in no slot. */
  lemma NotInSlots(h: Heap, owned: multiset<Ref>, own: Ref, step: Ref, xs: Ref)
    requires Counted(h, owned) && own in owned && Live(h, own) && h[own].rc == 1
    requires Live(h, step) && |h[step].slots| == 2 && h[step].slots[1] == Ptr(xs)
    ensures xs != own
  {
    OwnedLives(h, owned, own);
    SlotOwns(h, step, 1);
  }

  lemma SameAfterTail(h: Heap, step: Ref, tag: int, head: Word, xs: Ref, unique: bool, p: Ref)
    requires HasStep(h, step, tag, head, xs) && IsSeq(h, xs) && IsElement(h, head) && IsPreds(h, p)
    ensures var h' := AfterTail(h, step, tag, head, xs, unique);
      && IsPreds(h', p) && Codes(h', p) == Codes(h, p) && h'[p] == h[p]
      && IsElement(h', head) && Element(h', head) == Element(h, head) && IsSeq(h', xs)
  {
  }

  /** One more reference for the frame to a cell that a slot refers to. */
  method Share(rt: Runtime, x: Ref, ghost k: Start, ghost mean: seq<Mean>)
    requires InFrame(k, rt.cells, rt.owned, mean) && Live(rt.cells, x) && Out(rt.cells, x) > 0
    modifies rt
    ensures rt.owned == old(rt.owned) + multiset{x} && InFrame(k, rt.cells, rt.owned, mean)
    ensures rt.cells == old(rt.cells)[x := old(rt.cells)[x].(rc := old(rt.cells)[x].rc + 1)]
  {
    ghost var h, owned := rt.cells, rt.owned;
    rt.Incref(x);
    FrameIncref(k, h, owned, mean, x, rt.cells, rt.owned);
  }

  /** A new stage over the rest, with a reference of its own to the predicates `p`. */
  method NewStage(rt: Runtime, xs: Ref, p: Ref, ghost keep: multiset<Ref>, ghost k: Start, ghost mean: seq<Mean>, ghost m: Mean)
    returns (rest: Ref, ghost mean': seq<Mean>)
    requires k.keep <= keep && rt.owned == keep + multiset{xs} && InFrame(k, rt.cells, rt.owned, mean)
    requires IsSeq(rt.cells, xs) && IsPreds(rt.cells, p) && Out(rt.cells, p) > 0
    requires Stands(k.w, Codes(rt.cells, p), mean[xs], m)
    modifies rt
    ensures rt.owned == keep + multiset{rest} && InFrame(k, rt.cells, rt.owned, mean')
    ensures IsSeq(rt.cells, rest) && rest == |old(rt.cells)| && mean' == mean + [m]
    ensures forall r: Ref :: r < rest && r != p ==> rt.cells[r] == old(rt.cells)[r]
    ensures Live(rt.cells, p) && Alike(old(rt.cells)[p], rt.cells[p])
  {
    ghost var h := rt.cells;
    Share(rt, p, k, mean);
    SamePreds(h, rt.cells, rt.owned, {}, p);
    rest, mean' := AddStage(rt, xs, p, keep, k, mean, m);
  }

  method AddStage(rt: Runtime, xs: Ref, p: Ref, ghost keep: multiset<Ref>, ghost k: Start, ghost mean: seq<Mean>, ghost m: Mean)
    returns (rest: Ref, ghost mean': seq<Mean>)
    requires k.keep <= keep && rt.owned == keep + multiset{xs} + multiset{p} && InFrame(k, rt.cells, rt.owned, mean)
    requires IsSeq(rt.cells, xs) && IsPreds(rt.cells, p)
    requires Stands(k.w, Codes(rt.cells, p), mean[xs], m)
    modifies rt
    ensures rt.owned == keep + multiset{rest} && InFrame(k, rt.cells, rt.owned, mean')
    ensures rest == |old(rt.cells)| && mean' == mean + [m]
    ensures rt.cells == old(rt.cells) + [Cell(1, SeqCell(FILTER), [Ptr(xs), Ptr(p)])]
  {
    ghost var h, owned := rt.cells, rt.owned;
    PtrsTwo(Ptr(xs), Ptr(p));
    rest := rt.Alloc(SeqCell(FILTER), [Ptr(xs), Ptr(p)], keep);
    mean' := mean + [m];
    SamePreds(h, rt.cells, rt.owned, {}, p);
    assert StageOk(k.w, rt.cells, mean', rest);
    FrameAdded(k, h, owned, mean, rt.cells[rest], m, rt.owned);
  }

  /** The element passes, and the stage being read is shared: a new stage is made for the rest. */
  method AcceptShared(rt: Runtime, c: Ref, step: Ref, tag: int, head: Word, xs: Ref, ghost k: Start, ghost mean: seq<Mean>, ghost m: Mean)
    returns (cons: Ref, ghost mean': seq<Mean>)
    requires rt.owned == k.keep + multiset{step} && InFrame(k, rt.cells, rt.owned, mean)
    requires IsSeq(rt.cells, c) && rt.cells[c].slots[1].Ptr? && IsPreds(rt.cells, rt.cells[c].slots[1].ref)
    requires HasStep(rt.cells, step, tag, head, xs) && IsSeq(rt.cells, xs) && IsElement(rt.cells, head)
    requires StandsBehind(k.w, Codes(rt.cells, rt.cells[c].slots[1].ref), Element(rt.cells, head), mean[xs], m)
    modifies rt
    ensures Held(k, rt.cells, rt.owned, mean', cons, m)
  {
    ghost var h := rt.cells;
    var p := rt.cells[c].slots[1].ref;
    var unique := TakeRest(rt, step, tag, head, xs, k.keep, k, mean);
    SameAfterTail(h, step, tag, head, xs, unique, p);
    SlotOwns(rt.cells, c, 1);
    cons, mean' := SealNew(rt, unique, step, tag, head, xs, p, k, mean, m);
  }

  /** A new stage over the rest, and a step that ends in it. */
  method SealNew(rt: Runtime, unique: bool, step: Ref, tag: int, head: Word, xs: Ref, p: Ref, ghost k: Start, ghost mean: seq<Mean>, ghost m: Mean)
    returns (cons: Ref, ghost mean': seq<Mean>)
    requires rt.owned == k.keep + multiset{step} + multiset{xs} && InFrame(k, rt.cells, rt.owned, mean)
    requires IsSeq(rt.cells, xs) && IsElement(rt.cells, head) && IsPreds(rt.cells, p) && Out(rt.cells, p) > 0
    requires unique ==> Live(rt.cells, step) && rt.cells[step] == Cell(1, VariantCell(tag), [head, Null])
    requires StandsBehind(k.w, Codes(rt.cells, p), Element(rt.cells, head), mean[xs], m)
    modifies rt
    ensures Held(k, rt.cells, rt.owned, mean', cons, m)
  {
    ghost var rest0 := OfRest(k.w, Codes(rt.cells, p), mean[xs], m);
    var rest;
    rest, mean' := NewStage(rt, xs, p, k.keep + multiset{step}, k, mean, rest0);
    cons, mean' := Seal(rt, unique, step, tag, head, rest, k, mean', m);
  }

  /** The step is given up for the cell of the rest. */
  method FollowRest(rt: Runtime, step: Ref, xs: Ref, ghost keep: multiset<Ref>, ghost k: Start, ghost mean: seq<Mean>)
    requires k.keep <= keep && rt.owned == keep + multiset{step} && InFrame(k, rt.cells, rt.owned, mean)
    requires Live(rt.cells, step) && |rt.cells[step].slots| == 2 && rt.cells[step].slots[1] == Ptr(xs) && IsSeq(rt.cells, xs)
    modifies rt
    ensures rt.owned == keep + multiset{xs} && InFrame(k, rt.cells, rt.owned, mean)
    ensures OnlyCounts(old(rt.cells), rt.cells) && IsSeq(rt.cells, xs)
  {
    ghost var h := rt.cells;
    SlotOwns(h, step, 1);
    Share(rt, xs, k, mean);
    ghost var h1 := rt.cells;
    Regrouped(keep, step, xs);
    Discard(rt, step, keep + multiset{xs}, k, mean);
    OwnedLives(rt.cells, rt.owned, xs);
    CountsTwice(h, h1, rt.cells);
  }

  lemma Regrouped(keep: multiset<Ref>, a: Ref, b: Ref)
    ensures keep + multiset{a} + multiset{b} == keep + multiset{b} + multiset{a}
  {
  }

  lemma CountsTwice(h: Heap, h1: Heap, h2: Heap)
    requires OnlyCounts(h, h1) && OnlyCounts(h1, h2)
    ensures OnlyCounts(h, h2)
  {
  }

  // ---------- merging the stages below, seen from the reader ----------

  lemma AbsorbKeepsReference(g: Heap, h: Heap, owned': multiset<Ref>, mean: seq<Mean>, mean': seq<Mean>, keep: multiset<Ref>,
                             chain: seq<Ref>, s0: Ref, s: Ref, own: Ref, r: Ref)
    requires Absorbed(g, h, chain, s0, s, own) && Counted(h, owned') && owned' == keep + multiset{own} + multiset{s}
    requires r in keep && Live(g, r) && keep[own] == 0 && |mean| == |g| && mean <= mean'
    ensures SameReference(g, mean, h, mean', r)
  {
    OwnedLives(h, owned', r);
    assert r !in chain && r != own;
    if chain != [] { NotTheArray(h, owned', keep, s, own, r); }
    assert Alike(g[r], h[r]);
  }

  lemma NotTheArray(h: Heap, owned': multiset<Ref>, keep: multiset<Ref>, s: Ref, own: Ref, r: Ref)
    requires Counted(h, owned') && owned' == keep + multiset{own} + multiset{s} && r in keep
    requires BeingRead(h, own) && h[own].rc == 1 && GrowsInPlace(h, h[own].slots[1].ref)
    ensures r != h[own].slots[1].ref
  {
    OwnedLives(h, owned', r);
    if r == h[own].slots[1].ref { SlotOwns(h, own, 1); }
  }

  lemma AbsorbKeepsFrozen(w: World, g: Heap, owned: multiset<Ref>, h: Heap, owned': multiset<Ref>, mean: seq<Mean>, keep: multiset<Ref>,
                          chain: seq<Ref>, s0: Ref, s: Ref, own: Ref, c: Ref)
    requires Absorbed(g, h, chain, s0, s, own) && Counted(g, owned) && owned == keep + multiset{own} + multiset{s0}
    requires Counted(h, owned') && owned' == keep + multiset{own} + multiset{s} && Consistent(w, g, mean)
    requires c in keep && Stuck(g, c) && keep[own] == 0 && SeqGain(g, h, c)
    ensures SameFrozen(g, h, c)
  {
    OwnedLives(h, owned', c);
    assert CellOk(w, g, mean, c);
    assert c != own && c in owned;
    AbsorbAlike(g, h, chain, s0, s, own, c);
    if g[c].rc == 1 { AbsorbKeepsCount(g, owned, h, owned', keep, chain, s0, s, own, c); }
    if g[c].slots[1].Ptr? { AbsorbKeepsList(g, h, owned', chain, s0, s, own, c); }
  }

  lemma AbsorbAlike(g: Heap, h: Heap, chain: seq<Ref>, s0: Ref, s: Ref, own: Ref, c: Ref)
    requires Absorbed(g, h, chain, s0, s, own) && IsSeq(g, c) && Live(h, c) && c != own
    ensures Alike(g[c], h[c])
  {
    assert c !in chain;
    if chain != [] && c == h[own].slots[1].ref { assert false; }
  }

  lemma AbsorbKeepsCount(g: Heap, owned: multiset<Ref>, h: Heap, owned': multiset<Ref>, keep: multiset<Ref>,
                         chain: seq<Ref>, s0: Ref, s: Ref, own: Ref, c: Ref)
    requires Chain(g, chain, s0, s) && Counted(g, owned) && owned == keep + multiset{own} + multiset{s0}
    requires Counted(h, owned') && owned' == keep + multiset{own} + multiset{s}
    requires c in keep && IsSeq(g, c) && Live(h, c) && c != own && SeqGain(g, h, c) && g[c].rc == 1
    ensures h[c].rc == 1
  {
    OwnedLives(g, owned, c);
    OwnedLives(h, owned', c);
    OtherThanSource(g, owned, keep, chain, s0, s, own, c);
    assert owned'[c] == keep[c] && owned[c] == keep[c];
  }

  lemma OtherThanSource(g: Heap, owned: multiset<Ref>, keep: multiset<Ref>, chain: seq<Ref>, s0: Ref, s: Ref, own: Ref, c: Ref)
    requires Counted(g, owned) && owned == keep + multiset{own} + multiset{s0} && Live(g, c) && g[c].rc == 1 && c in keep
    requires Chain(g, chain, s0, s)
    ensures s != c && s0 != c
  {
    OwnedLives(g, owned, c);
    if chain != [] {
      var last := |chain| - 1;
      assert Stage(g, chain, last, s);
      SlotOwns(g, chain[last], 0);
    }
  }

  lemma AbsorbKeepsList(g: Heap, h: Heap, owned': multiset<Ref>, chain: seq<Ref>, s0: Ref, s: Ref, own: Ref, c: Ref)
    requires Absorbed(g, h, chain, s0, s, own) && Counted(h, owned') && IsSeq(g, c) && Live(h, c) && Alike(g[c], h[c]) && c != own
    requires g[c].slots[1].Ptr? && IsPreds(g, g[c].slots[1].ref)
    ensures var p := g[c].slots[1].ref; IsPreds(h, p) && Codes(h, p) == Codes(g, p)
  {
    var p, out := g[c].slots[1].ref, h[own].slots[1].ref;
    SlotOwns(h, c, 1);
    OwnedLives(h, owned', p);
    if chain != [] && p == out {
      TwoHolders(h, c, own, 1, 1, out);
      assert false;
    }
    ChainCells(g, chain, s0, s);
    SamePreds(g, h, owned', InChain(chain) + (if chain == [] then {} else {own, out}), p);
  }

  lemma AbsorbClear(g: Heap, h: Heap, mean: seq<Mean>, mean': seq<Mean>, chain: seq<Ref>, s0: Ref, s: Ref, own: Ref, busy: set<Ref>)
    requires Absorbed(g, h, chain, s0, s, own) && |mean| == |g| && mean <= mean' && own in busy
    ensures Clear(g, mean, h, mean', busy)
  {
    forall c: Ref ensures c in busy || ClearAt(g, mean, h, mean', c) {
      if Stuck(h, c) && c != own {
        assert c < |g| && c !in chain;
        var out := h[own].slots[1].ref;
        if c == out { assert false; }
        assert Alike(g[c], h[c]);
      }
    }
  }

  lemma AbsorbFrame(k: Start, g: Heap, owned: multiset<Ref>, mean: seq<Mean>, h: Heap, owned': multiset<Ref>, mean': seq<Mean>,
                    chain: seq<Ref>, s0: Ref, s: Ref, own: Ref)
    requires InFrame(k, g, owned, mean) && Absorbed(g, h, chain, s0, s, own) && SameMeaning(k.w, g, h, mean, mean', s0, s, own)
    requires owned == k.keep + multiset{own} + multiset{s0} && g[own].rc == 1
    requires Counted(h, owned') && owned' == k.keep + multiset{own} + multiset{s} && KeptSeqs(g, h, k.keep) && own in k.busy
    ensures InFrame(k, h, owned', mean')
  {
    FrozenNow(k, g, owned, mean);
    SourceNotOwn(g, owned, k.keep, chain, s0, s, own);
    forall r: Ref | r in k.keep ensures SameReference(g, mean, h, mean', r) {
      OwnedLives(g, owned, r);
      AbsorbKeepsReference(g, h, owned', mean, mean', k.keep, chain, s0, s, own, r);
    }
    forall c <- k.frozen ensures SameFrozen(g, h, c) {
      assert SeqGain(g, h, c);
      AbsorbKeepsFrozen(k.w, g, owned, h, owned', mean, k.keep, chain, s0, s, own, c);
    }
    AbsorbClear(g, h, mean, mean', chain, s0, s, own, k.busy);
    FrameThrough(k, g, owned, mean, h, owned', mean');
  }

  // ---------- the loop over the source ----------

  /** One turn of the loop ends the read, or leaves a shorter source to go on with. */
  datatype Turn = Done(step: Ref) | Again(source: Ref) | Stop(out: Outcome)

  /** The unshared stage `own` over the source `s` stands for `m`. */
  ghost predicate OwnState(k: Start, h: Heap, owned: multiset<Ref>, mean: seq<Mean>, own: Ref, s: Ref, m: Mean) {
    && owned == k.keep + multiset{own} + multiset{s} && OwnFrame(k, h, owned, mean, own, m) && IsSeq(h, s)
    && Stands(k.w, Codes(h, h[own].slots[1].ref), mean[s], m)
  }

  ghost predicate OwnFrame(k: Start, h: Heap, owned: multiset<Ref>, mean: seq<Mean>, own: Ref, m: Mean) {
    && InFrame(k, h, owned, mean) && k.busy == {own} && (k.calm ==> m.calm && m.rank < k.rank)
    && BeingRead(h, own) && h[own].rc == 1 && mean[own] == m
  }

  /** The shared stage `c`, marked as being read, over the source `s` stands for `m`. */
  ghost predicate SharedState(k: Start, h: Heap, owned: multiset<Ref>, mean: seq<Mean>, c: Ref, s: Ref, m: Mean) {
    && owned == k.keep + multiset{s} && SharedFrame(k, h, owned, mean, c, m) && IsSeq(h, s)
    && Stands(k.w, Codes(h, h[c].slots[1].ref), mean[s], m)
  }

  ghost predicate SharedFrame(k: Start, h: Heap, owned: multiset<Ref>, mean: seq<Mean>, c: Ref, m: Mean) {
    && InFrame(k, h, owned, mean) && k.busy == {} && (k.calm ==> m.calm && m.rank <= k.rank)
    && c in k.frozen && IsSeq(h, c) && h[c].kind.state == FILTERING
    && h[c].slots[1].Ptr? && IsPreds(h, h[c].slots[1].ref)
  }

  lemma OwnKept(h: Heap, owned: multiset<Ref>, h': Heap, owned': multiset<Ref>, keep: multiset<Ref>, own: Ref, step: Ref, xs: Ref)
    requires Counted(h, owned) && Counted(h', owned') && OnlyCounts(h, h')
    requires owned == keep + multiset{own} + multiset{step} && owned' == keep + multiset{own} + multiset{xs}
    requires BeingRead(h, own) && h[own].rc == 1 && step != own && xs != own
    ensures BeingRead(h', own) && h'[own] == h[own]
    ensures Codes(h', h'[own].slots[1].ref) == Codes(h, h[own].slots[1].ref)
  {
    OwnedLives(h, owned, own);
    StillUnique(h, owned, h', owned', own);
    SlotLives(h', owned', own, 1);
    SamePreds(h, h', owned', {}, h[own].slots[1].ref);
  }

  /** A stage that the frame alone saw is gone once the frame has given it up. */
  lemma OwnGone(h: Heap, owned: multiset<Ref>, h': Heap, owned': multiset<Ref>, own: Ref)
    requires Counted(h, owned) && Live(h, own) && h[own].rc == 1 && own in owned
    requires Counted(h', owned') && OnlyCounts(h, h') && own !in owned'
    ensures !Live(h', own)
  {
    OwnedLives(h, owned, own);
    OutShrinks(h, h', own);
    assert Count(h', own) == Owners(h', owned', own);
  }

  /** The source is at its end, and so is the stage. */
  method OwnEnd(rt: Runtime, own: Ref, step: Ref, ghost k: Start, ghost mean: seq<Mean>, ghost m: Mean)
    requires rt.owned == k.keep + multiset{own} + multiset{step} && OwnFrame(k, rt.cells, rt.owned, mean, own, m)
    requires StepOk(rt.cells, mean, step, m)
    modifies rt
    ensures ReadDone(k, rt.cells, rt.owned, mean, step, m)
  {
    ghost var h, owned := rt.cells, rt.owned;
    OwnedLives(h, owned, own);
    assert owned[own] == k.keep[own] + 1 + multiset{step}[own];
    assert owned == k.keep + multiset{step} + multiset{own};
    Discard(rt, own, k.keep + multiset{step}, k, mean);
    assert (k.keep + multiset{step})[own] == k.keep[own] + multiset{step}[own];
    OwnGone(h, owned, rt.cells, rt.owned, own);
    NoLongerBusy(k, rt.cells, rt.owned, mean);
    OwnedLives(rt.cells, rt.owned, step);
    SameStep(h, rt.cells, rt.owned, mean, mean, step, m, {});
  }

  lemma EmptyStep(w: World, h: Heap, mean: seq<Mean>, step: Ref, src: Mean, ps: seq<nat>, m: Mean)
    requires StepOk(h, mean, step, src) && h[step].slots == [] && m.xs == Filtered(w, ps, src.xs)
    ensures StepOk(h, mean, step, m)
  {
  }

  /** The step of the source has been read: its element is judged. */
  method OwnJudge(rt: Runtime, own: Ref, step: Ref, w: World, ghost k: Start, ghost mean: seq<Mean>, ghost src: Mean, ghost m: Mean)
    returns (t: Turn, ghost mean': seq<Mean>)
    requires k.w == w
    requires rt.owned == k.keep + multiset{own} + multiset{step} && OwnFrame(k, rt.cells, rt.owned, mean, own, m)
    requires StepOk(rt.cells, mean, step, src)
    requires Stands(w, Codes(rt.cells, rt.cells[own].slots[1].ref), src, m)
    modifies rt
    ensures t.Done? ==> ReadDone(k, rt.cells, rt.owned, mean', t.step, m)
    ensures t.Again? ==> mean' == mean && OwnState(k, rt.cells, rt.owned, mean, own, t.source, m) && mean[t.source].rank < src.rank
    ensures t.Stop? ==> !t.out.Step? && ReadLeft(k, rt.cells, rt.owned, mean')
  {
    ghost var h, owned := rt.cells, rt.owned;
    mean' := mean;
    if rt.cells[step].slots == [] {
      EmptyStep(w, h, mean, step, src, Codes(h, h[own].slots[1].ref), m);
      OwnEnd(rt, own, step, k, mean, m);
      return Done(step), mean;
    }
    var head, xs, tag := rt.cells[step].slots[0], rt.cells[step].slots[1].ref, rt.cells[step].kind.tag;
    NotInSlots(h, owned, own, step, xs);
    StandsOver(w, Codes(h, h[own].slots[1].ref), src, m, mean[xs]);
    var verdict := ApplyAll(rt, rt.cells[own].slots[1].ref, head, w);
    match verdict {
      case Passed =>
        var cons;
        cons, mean' := AcceptOwn(rt, own, step, tag, head, xs, k, mean, m);
        t := Done(cons);
      case Refused =>
        FollowRest(rt, step, xs, k.keep + multiset{own}, k, mean);
        OwnKept(h, owned, rt.cells, rt.owned, k.keep, own, step, xs);
        t := Again(xs);
      case Quit =>
        OwnLeft(rt, own, step, k, mean);
        t := Stop(Exited);
    }
  }

  /** An exit past the reader releases the stage and the step it was judging. */
  method OwnLeft(rt: Runtime, own: Ref, step: Ref, ghost k: Start, ghost mean: seq<Mean>)
    requires rt.owned == k.keep + multiset{own} + multiset{step} && InFrame(k, rt.cells, rt.owned, mean) && !k.calm
    modifies rt
    ensures ReadLeft(k, rt.cells, rt.owned, mean)
  {
    assert rt.owned == k.keep + multiset{step} + multiset{own};
    Discard(rt, own, k.keep + multiset{step}, k, mean);
    Discard(rt, step, k.keep, k, mean);
  }

  method SharedJudge(rt: Runtime, c: Ref, step: Ref, w: World, ghost k: Start, ghost mean: seq<Mean>, ghost src: Mean, ghost m: Mean)
    returns (t: Turn, ghost mean': seq<Mean>)
    requires k.w == w
    requires rt.owned == k.keep + multiset{step} && SharedFrame(k, rt.cells, rt.owned, mean, c, m)
    requires StepOk(rt.cells, mean, step, src)
    requires Stands(w, Codes(rt.cells, rt.cells[c].slots[1].ref), src, m)
    modifies rt
    ensures t.Done? ==> Held(k, rt.cells, rt.owned, mean', t.step, m)
    ensures t.Again? ==> mean' == mean && SharedState(k, rt.cells, rt.owned, mean, c, t.source, m) && mean[t.source].rank < src.rank
    ensures t.Stop? ==> !t.out.Step? && ReadLeft(k, rt.cells, rt.owned, mean')
  {
    ghost var h, owned := rt.cells, rt.owned;
    mean' := mean;
    if rt.cells[step].slots == [] {
      EmptyStep(w, h, mean, step, src, Codes(h, h[c].slots[1].ref), m);
      return Done(step), mean;
    }
    var head, xs, tag := rt.cells[step].slots[0], rt.cells[step].slots[1].ref, rt.cells[step].kind.tag;
    StandsOver(w, Codes(h, h[c].slots[1].ref), src, m, mean[xs]);
    var verdict := ApplyAll(rt, rt.cells[c].slots[1].ref, head, w);
    match verdict {
      case Passed =>
        var cons;
        cons, mean' := AcceptShared(rt, c, step, tag, head, xs, k, mean, m);
        t := Done(cons);
      case Refused =>
        FollowRest(rt, step, xs, k.keep, k, mean);
        SharedKept(h, rt.cells, rt.owned, k, c);
        t := Again(xs);
      case Quit =>
        Discard(rt, step, k.keep, k, mean);
        t := Stop(Exited);
    }
  }

  lemma SharedKept(h: Heap, h': Heap, owned': multiset<Ref>, k: Start, c: Ref)
    requires OnlyCounts(h, h') && Counted(h', owned') && k.keep <= owned' && c in k.frozen && Frozen(k.h, k.keep, k.frozen)
    requires IsSeq(h, c) && h[c].slots[1].Ptr? && IsPreds(h, h[c].slots[1].ref)
    ensures Live(h', c) && Alike(h[c], h'[c]) && IsPreds(h', h[c].slots[1].ref)
    ensures Codes(h', h[c].slots[1].ref) == Codes(h, h[c].slots[1].ref)
  {
    OwnedLives(h', owned', c);
    SlotLives(h', owned', c, 1);
    SamePreds(h, h', owned', {}, h[c].slots[1].ref);
  }

  /** The read of the source from within the read of a stage. */
  ghost function Inner(k: Start, h: Heap, mean: seq<Mean>, more: multiset<Ref>, hold: set<Ref>, rank: nat): Start {
    Start(k.w, h, mean, k.keep + more, k.frozen + hold, {}, k.calm, rank)
  }

  lemma OwnCanRead(k: Start, h: Heap, owned: multiset<Ref>, mean: seq<Mean>, own: Ref, s: Ref, m: Mean)
    requires Honest(k.w) && OwnState(k, h, owned, mean, own, s, m)
    ensures CanRead(Inner(k, h, mean, multiset{own}, {own}, mean[s].rank + 1), h, owned, s)
  {
    FrozenNow(k, h, owned, mean);
    if k.calm { QuietNow(k, h, owned, mean, mean[s].rank + 1); }
    StartRead(k.w, h, mean, k.keep + multiset{own}, k.frozen + {own}, k.calm, mean[s].rank + 1, s);
  }

  lemma SharedCanRead(k: Start, h: Heap, owned: multiset<Ref>, mean: seq<Mean>, c: Ref, s: Ref, m: Mean)
    requires Honest(k.w) && SharedState(k, h, owned, mean, c, s, m)
    ensures CanRead(Inner(k, h, mean, multiset{}, {}, mean[s].rank + 1), h, owned, s)
  {
    FrozenNow(k, h, owned, mean);
    assert k.frozen + {} == k.frozen && k.keep + multiset{} == k.keep;
    if k.calm { QuietNow(k, h, owned, mean, mean[s].rank + 1); }
    StartRead(k.w, h, mean, k.keep, k.frozen, k.calm, mean[s].rank + 1, s);
  }

  /** The stage `c` over its source `s`, for the time of the read without it. */
  ghost predicate WithoutSource(k: Start, h: Heap, owned: multiset<Ref>, c: Ref, s: Ref) {
    && owned == k.keep + multiset{c} + multiset{s} && InHands(k, h, owned, k.mean, c) && IsSeq(h, s)
    && h[c].kind.state == FILTER && h[c].slots[0] == Null && h[c].slots[1].Ptr? && IsPreds(h, h[c].slots[1].ref)
    && Stands(k.w, Codes(h, h[c].slots[1].ref), k.mean[s], k.mean[c])
    && (k.calm ==> k.mean[c].calm && k.mean[c].rank < k.rank)
  }

  /** The source leaves the stage for the time of the read. */
  method DetachSource(rt: Runtime, c: Ref, s: Ref, ghost k: Start)
    requires CanRead(k, rt.cells, rt.owned, c)
    requires rt.cells[c].kind == SeqCell(FILTER) && rt.cells[c].slots[0] == Ptr(s)
    modifies rt
    ensures WithoutSource(k.(busy := {c}), rt.cells, rt.owned, c, s)
    ensures rt.cells == old(rt.cells)[c := Cell(old(rt.cells)[c].rc, SeqCell(FILTER), [Null, old(rt.cells)[c].slots[1]])]
  {
    ghost var h, owned := rt.cells, rt.owned;
    var p := rt.cells[c].slots[1];
    assert CellOk(k.w, h, k.mean, c) && StageOk(k.w, h, k.mean, c) && !Stuck(h, c);
    PtrsTwo(Ptr(s), p);
    PtrsTwo(Null, p);
    assert rt.cells[c].slots == [Ptr(s), p];
    rt.Write(c, SeqCell(FILTER), [Null, p], k.keep + multiset{c} + multiset{s});
    KeepsPreds(h, c, rt.cells[c], p.ref);
    FrameRestate(k.(busy := {c}), h, owned, k.mean, c, rt.cells[c], rt.owned);
  }

  /** A marked stage takes its step, or is left without its source. */
  method Unmark(rt: Runtime, c: Ref, left: Outcome, ghost k: Start, ghost mean: seq<Mean>) returns (out: Outcome)
    requires rt.owned == Got(k.keep + multiset{c}, left) && InHands(k, rt.cells, rt.owned, mean, c)
    requires rt.cells[c].kind.state == FILTERING && rt.cells[c].slots[0] == Null && rt.cells[c].slots[1].Ptr?
    requires if left.Step? then StepOk(rt.cells, mean, left.ref, mean[c]) else !k.calm
    modifies rt
    ensures ReadOver(k, rt.cells, rt.owned, mean, out, mean[c])
    ensures c in k.keep ==> Recorded(rt.cells, c, out)
  {
    if left.Step? {
      PtrsTwo(Null, rt.cells[c].slots[1]);
      assert rt.cells[c].slots == [Null, rt.cells[c].slots[1]];
      var step := Finish(rt, c, rt.cells[c].slots[1].ref, left.ref, k, mean);
      out := Step(step);
    } else {
      Abandon(rt, c, k, mean);
      out := left;
    }
  }

  method Mark(rt: Runtime, c: Ref, s: Ref, ghost k: Start) returns (ghost k1: Start)
    requires WithoutSource(k, rt.cells, rt.owned, c, s)
    modifies rt
    ensures rt.owned == k.keep + multiset{c} + multiset{s} && InFrame(k, rt.cells, rt.owned, k.mean)
    ensures k1 == Inner(k, rt.cells, k.mean, multiset{c}, {c}, k.mean[c].rank)
    ensures SharedState(k1, rt.cells, rt.owned, k.mean, c, s, k.mean[c])
  {
    ghost var h := rt.cells;
    var slots := rt.cells[c].slots;
    rt.Write(c, SeqCell(FILTERING), slots, rt.owned);
    KeepsPreds(h, c, rt.cells[c], slots[1].ref);
    FrameRestate(k, h, rt.owned, k.mean, c, rt.cells[c], rt.owned);
    MarkedFrame(k, rt.cells, rt.owned, c);
    k1 := Inner(k, rt.cells, k.mean, multiset{c}, {c}, k.mean[c].rank);
  }

  /** The read of a marked stage, as a frame of its own: the stage is among the cells it must not
      touch. */
  lemma MarkedFrame(k: Start, h: Heap, owned: multiset<Ref>, c: Ref)
    requires InFrame(k, h, owned, k.mean) && k.keep + multiset{c} <= owned && Stuck(h, c) && k.busy == {c}
    requires k.calm ==> k.mean[c].rank < k.rank
    ensures InFrame(Inner(k, h, k.mean, multiset{c}, {c}, k.mean[c].rank), h, owned, k.mean)
  {
    FrozenNow(k, h, owned, k.mean);
    if k.calm { QuietNow(k, h, owned, k.mean, k.mean[c].rank); }
    CountsEvolve(k.w, h, owned, h, owned, k.mean, k.keep + multiset{c}, k.frozen + {c});
  }

  // ---------- what the step says ----------

  /** The step of a stage over a source: empty if and only if no element passes, else the first
      one that passes, with a cell for what passes after it. */
  lemma {:induction false} FirstPassing(w: World, ps: seq<nat>, xs: seq<int>) returns (i: nat)
    ensures i <= |xs| && forall j :: 0 <= j < i ==> !Passes(w, ps, xs[j])
    ensures Filtered(w, ps, xs) == [] <==> i == |xs|
    ensures i < |xs| ==> Passes(w, ps, xs[i]) && Filtered(w, ps, xs) == [xs[i]] + Filtered(w, ps, xs[i + 1..])
  {
    if xs == [] || Passes(w, ps, xs[0]) {
      i := 0;
    } else {
      i := FirstPassing(w, ps, xs[1..]);
      assert xs[1..][i..] == xs[i + 1..];
      i := i + 1;
    }
  }

  /** The step holds the first passing element of `source`, at `i`, and a cell for the passing ones after it. */
  ghost predicate IsFirst(w: World, h: Heap, mean: seq<Mean>, step: Ref, ps: seq<nat>, source: seq<int>, i: nat) {
    && i < |source| && Passes(w, ps, source[i]) && (forall j :: 0 <= j < i ==> !Passes(w, ps, source[j]))
    && Live(h, step) && |h[step].slots| == 2 && IsElement(h, h[step].slots[0]) && h[step].slots[1].Ptr?
    && Element(h, h[step].slots[0]) == source[i]
    && h[step].slots[1].ref < |mean| && mean[h[step].slots[1].ref].xs == Filtered(w, ps, source[i + 1..])
  }

  /** `step`, in the later heap `h'`, is what filtering the source of the stage `c` begins with. */
  ghost predicate FiltersFirst(w: World, h: Heap, mean: seq<Mean>, c: Ref, h': Heap, mean': seq<Mean>, step: Ref) {
    && IsSeq(h, c) && h[c].slots[0].Ptr? && h[c].slots[1].Ptr? && h[c].slots[0].ref < |mean| && Live(h, h[c].slots[1].ref)
    && Live(h', step)
    && var ps, source := Codes(h, h[c].slots[1].ref), mean[h[c].slots[0].ref].xs;
      && (h'[step].slots == [] <==> forall x <- source :: !Passes(w, ps, x))
      && (h'[step].slots != [] ==> exists i :: IsFirst(w, h', mean', step, ps, source, i))
  }

  lemma StepOfStage(w: World, h: Heap, mean: seq<Mean>, c: Ref, h': Heap, mean': seq<Mean>, step: Ref)
    requires |mean| == |h| && IsSeq(h, c) && h[c].slots[1].Ptr? && IsPreds(h, h[c].slots[1].ref) && StageOk(w, h, mean, c)
    requires StepOk(h', mean', step, mean[c])
    ensures FiltersFirst(w, h, mean, c, h', mean', step)
  {
    var ps, source := Codes(h, h[c].slots[1].ref), mean[h[c].slots[0].ref].xs;
    var i := FirstPassing(w, ps, source);
    if i < |source| { assert source[i] in source && IsFirst(w, h', mean', step, ps, source, i); }
  }
}
