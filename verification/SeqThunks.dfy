/** The thunks of the standard library, up to the reads that they make: what deferring a cell does
    to the heap, the step of a range, and what a stage makes of the step that it has read. */
module SeqThunks {
  import opened RcHeap
  import opened SeqPreds
  import opened SeqWorld
  import opened SeqMeaning
  import opened SeqFrames
  import opened SeqReads
  import opened SeqFilter

  const CONS: int := 0

  // ---------- deferring ----------

  const Nothing := Mean([], 0, true)

  /** A new cell takes over references of the frame. */
  lemma FrameAlloc(k: Start, h: Heap, owned: multiset<Ref>, keep: multiset<Ref>, mean: seq<Mean>, c: Cell, m: Mean)
    requires k.keep <= keep && InFrame(k, h, owned, mean) && c.Cell? && c.rc == 1 && owned == keep + Ptrs(c.slots)
    requires c.kind.SeqCell? ==> CellOk(k.w, h + [c], mean + [m], |h|) && !Stuck(h + [c], |h|)
    ensures InFrame(k, h + [c], keep + multiset{|h|}, mean + [m])
  {
    AllocKeeps(h, owned, c);
    assert owned - Ptrs(c.slots) == keep;
    FrameAdded(k, h, owned, mean, c, m, keep + multiset{|h|});
  }

  method NewClosure(rt: Runtime, code: nat, ws: seq<Word>, ghost keep: multiset<Ref>, ghost k: Start, ghost mean: seq<Mean>)
    returns (t: Ref)
    requires k.keep <= keep && rt.owned == keep + Ptrs(ws) && InFrame(k, rt.cells, rt.owned, mean)
    modifies rt
    ensures t == |old(rt.cells)| && rt.cells == old(rt.cells) + [Cell(1, ClosureCell(code), ws)]
    ensures rt.owned == keep + multiset{t} && InFrame(k, rt.cells, rt.owned, mean + [Nothing])
  {
    ghost var h, owned := rt.cells, rt.owned;
    t := rt.Alloc(ClosureCell(code), ws, keep);
    FrameAlloc(k, h, owned, keep, mean, rt.cells[t], Nothing);
  }

  /** A cell over a thunk. */
  method NewCell(rt: Runtime, t: Ref, ghost keep: multiset<Ref>, ghost k: Start, ghost mean: seq<Mean>, ghost m: Mean)
    returns (s: Ref)
    requires k.keep <= keep && rt.owned == keep + multiset{t} && InFrame(k, rt.cells, rt.owned, mean)
    requires Fits(k.w, rt.cells, mean, t, m)
    modifies rt
    ensures s == |old(rt.cells)| && rt.cells == old(rt.cells) + [Cell(1, SeqCell(THUNK), [Ptr(t), Null])]
    ensures rt.owned == keep + multiset{s} && InFrame(k, rt.cells, rt.owned, mean + [m])
  {
    ghost var h, owned := rt.cells, rt.owned;
    PtrsTwo(Ptr(t), Null);
    s := rt.Alloc(SeqCell(THUNK), [Ptr(t), Null], keep);
    MildFits(k.w, h, rt.cells, rt.owned, mean, mean + [m], t, m, {});
    FrameAlloc(k, h, owned, keep, mean, rt.cells[s], m);
  }

  /** The heap once a thunk with the given code and captures is deferred. */
  function Deferred(h: Heap, code: nat, ws: seq<Word>): Heap {
    h + [Cell(1, ClosureCell(code), ws)] + [Cell(1, SeqCell(THUNK), [Ptr(|h|), Null])]
  }

  method Defer(rt: Runtime, code: nat, ws: seq<Word>, ghost keep: multiset<Ref>, ghost k: Start, ghost mean: seq<Mean>, ghost m: Mean)
    returns (s: Ref, ghost mean': seq<Mean>)
    requires k.keep <= keep && rt.owned == keep + Ptrs(ws) && InFrame(k, rt.cells, rt.owned, mean)
    requires Fits(k.w, rt.cells + [Cell(1, ClosureCell(code), ws)], mean + [Nothing], |rt.cells|, m)
    modifies rt
    ensures s == |old(rt.cells)| + 1 && rt.cells == Deferred(old(rt.cells), code, ws)
    ensures rt.owned == keep + multiset{s} && mean' == mean + [Nothing] + [m] && InFrame(k, rt.cells, rt.owned, mean')
  {
    var t := NewClosure(rt, code, ws, keep, k, mean);
    s := NewCell(rt, t, keep, k, mean + [Nothing], m);
    mean' := mean + [Nothing] + [m];
  }

  /** The empty step. */
  method End(rt: Runtime, ghost k: Start, ghost mean: seq<Mean>, ghost m: Mean) returns (step: Ref, ghost mean': seq<Mean>)
    requires rt.owned == k.keep && InFrame(k, rt.cells, rt.owned, mean) && m.xs == []
    modifies rt
    ensures Held(k, rt.cells, rt.owned, mean', step, m)
  {
    ghost var h, owned := rt.cells, rt.owned;
    step := rt.Alloc(VariantCell(CONS), [], k.keep);
    mean' := mean + [m];
    FrameAlloc(k, h, owned, k.keep, mean, rt.cells[step], m);
  }

  /** A thunk begins to run. */
  lemma Begins(w: World, h: Heap, owned: multiset<Ref>, mean: seq<Mean>, frozen: set<Ref>, m: Mean)
    requires Ready(w, h, owned, mean, frozen)
    ensures var k := AsRead(w, h, owned, mean, frozen, m); InFrame(k, h, owned, mean) && k.(busy := {}) == k
  {
    CountsEvolve(w, h, owned, h, owned, mean, owned, frozen);
  }

  // ---------- a range ----------

  lemma {:induction false} RawOnly(ws: seq<Word>)
    requires forall i :: 0 <= i < |ws| ==> ws[i].Raw?
    ensures Ptrs(ws) == multiset{}
  {
    if ws != [] { RawOnly(ws[..|ws| - 1]); }
  }

  /** The thunk of a range: the end, or an element and a cell for the range that follows it. */
  method RunRange(rt: Runtime, t: Ref, w: World, ghost mean: seq<Mean>, ghost frozen: set<Ref>, ghost m: Mean)
    returns (out: Outcome, ghost mean': seq<Mean>)
    requires Ready(w, rt.cells, rt.owned, mean, frozen) && IsClosure(rt.cells, t) && RangeStands(rt.cells[t].slots, m)
    modifies rt
    ensures out.Step? && ReadOver(AsRead(w, old(rt.cells), old(rt.owned), mean, frozen, m), rt.cells, rt.owned, mean', out, m)
  {
    ghost var k := AsRead(w, rt.cells, rt.owned, mean, frozen, m);
    Begins(w, rt.cells, rt.owned, mean, frozen, m);
    var a, hi, gap := rt.cells[t].slots[0].value, rt.cells[t].slots[1].value, rt.cells[t].slots[2].value;
    var step;
    if PastEnd(a, hi, gap) {
      step, mean' := End(rt, k, mean, m);
    } else {
      step, mean' := RangeNext(rt, a, hi, gap, k, mean, m);
    }
    out := Step(step);
  }

  method RangeNext(rt: Runtime, a: int, hi: int, gap: int, ghost k: Start, ghost mean: seq<Mean>, ghost m: Mean)
    returns (step: Ref, ghost mean': seq<Mean>)
    requires rt.owned == k.keep && InFrame(k, rt.cells, rt.owned, mean) && gap != 0 && !PastEnd(a, hi, gap)
    requires m.xs == Range(a, hi, gap) && |m.xs| <= m.rank
    modifies rt
    ensures Held(k, rt.cells, rt.owned, mean', step, m)
  {
    ghost var xs := Range(a + gap, hi, gap);
    assert m.xs == [a] + xs;
    var rest;
    rest, mean' := DeferRange(rt, a + gap, hi, gap, k, mean, Mean(xs, |xs|, true));
    step, mean' := SeqFilter.AddStep(rt, CONS, Raw(a), rest, k.keep, k, mean', m);
  }

  method DeferRange(rt: Runtime, a: int, hi: int, gap: int, ghost k: Start, ghost mean: seq<Mean>, ghost m: Mean)
    returns (rest: Ref, ghost mean': seq<Mean>)
    requires rt.owned == k.keep && InFrame(k, rt.cells, rt.owned, mean) && gap != 0
    requires m.xs == Range(a, hi, gap) && |m.xs| <= m.rank
    modifies rt
    ensures rt.owned == k.keep + multiset{rest} && InFrame(k, rt.cells, rt.owned, mean')
    ensures IsSeq(rt.cells, rest) && rest < |mean'| && mean'[rest] == m
  {
    var ws := [Raw(a), Raw(hi), Raw(gap)];
    RawOnly(ws);
    rest, mean' := Defer(rt, RANGE, ws, k.keep, k, mean, m);
  }

  // ---------- a stage ----------

  /** Gives up a word that the frame holds beside its step. */
  method Release(rt: Runtime, x: Word, ghost keep: multiset<Ref>, ghost k: Start, ghost mean: seq<Mean>)
    requires k.keep <= keep && rt.owned == keep + PtrOf(x) && InFrame(k, rt.cells, rt.owned, mean)
    modifies rt
    ensures rt.owned == keep && InFrame(k, rt.cells, rt.owned, mean)
  {
    if x.Ptr? { Discard(rt, x.ref, keep, k, mean); }
  }

  method ReleaseBut(rt: Runtime, x: Word, step: Ref, ghost k: Start, ghost mean: seq<Mean>, ghost m: Mean)
    requires rt.owned == k.keep + multiset{step} + PtrOf(x) && InFrame(k, rt.cells, rt.owned, mean) && StepOk(rt.cells, mean, step, m)
    modifies rt
    ensures Held(k, rt.cells, rt.owned, mean, step, m)
  {
    if x.Ptr? { DiscardBut(rt, x.ref, step, k, mean, m); }
  }

  /** What the frame of a stage holds: its argument, and the step that it has read. */
  ghost predicate AtStage(k: Start, h: Heap, owned: multiset<Ref>, mean: seq<Mean>, code: nat, arg: Word, read: Ref, src: Mean, m: Mean) {
    && owned == k.keep + multiset{read} + PtrOf(arg) && InFrame(k, h, owned, mean) && k.busy == {}
    && StepOk(h, mean, read, src) && IsArgument(h, code, arg)
    && !Idle(StageOf(h, code, arg)) && StagedFrom(k.w, StageOf(h, code, arg), src, m) && (k.calm ==> m.calm)
  }

  /** What a stage makes of the step it has read. */
  method StageStep(rt: Runtime, code: nat, arg: Word, read: Ref, w: World, ghost k: Start, ghost mean: seq<Mean>, ghost src: Mean, ghost m: Mean)
    returns (out: Outcome, ghost mean': seq<Mean>)
    requires k.w == w && AtStage(k, rt.cells, rt.owned, mean, code, arg, read, src, m)
    modifies rt
    ensures ReadOver(k, rt.cells, rt.owned, mean', out, m)
    ensures !out.Panic? && (out.Exited? <==> ExitsFirst(w, StageOf(old(rt.cells), code, arg), src.xs))
  {
    var ws, g := rt.cells[read].slots, StageOf(rt.cells, code, arg);
    mean' := mean;
    assert k.(busy := {}) == k;
    if ws == [] {
      assert StepOk(rt.cells, mean, read, m);
      ReleaseBut(rt, arg, read, k, mean, m);
      return Step(read), mean;
    }
    var x, step := Element(rt.cells, ws[0]), read;
    if Leaves(w, g, x) {
      Release(rt, arg, k.keep + multiset{read}, k, mean);
      Discard(rt, read, k.keep, k, mean);
      return Exited, mean;
    } else if Ends(w, g, x) {
      Release(rt, arg, k.keep + multiset{read}, k, mean);
      Discard(rt, read, k.keep, k, mean);
      step, mean' := End(rt, k, mean, m);
    } else {
      step, mean' := StageOn(rt, code, arg, read, w, k, mean, src, m);
    }
    out := Step(step);
  }

  /** The mean of the stage that is deferred over the rest. */
  ghost function Following(w: World, g: LazyStage, src: Mean, m: Mean): Mean {
    Mean(Staged(w, Onward(g), src.xs), src.rank + 1, m.calm)
  }

  lemma FollowingStands(w: World, g: LazyStage, src: Mean, rest: Mean, m: Mean)
    requires StagedFrom(w, g, src, m) && src.xs != [] && !Ends(w, g, src.xs[0])
    requires rest.xs == src.xs[1..] && rest.rank < src.rank && (src.calm ==> rest.calm)
    ensures StagedFrom(w, Onward(g), rest, Following(w, g, rest, m))
    ensures m.xs == [Turned(w, g, src.xs[0])] + Following(w, g, rest, m).xs && Following(w, g, rest, m).rank < m.rank
  {
  }

  /** The stage goes on: a step with what it makes of the element, and the stage over the rest. */
  method StageOn(rt: Runtime, code: nat, arg: Word, read: Ref, w: World, ghost k: Start, ghost mean: seq<Mean>, ghost src: Mean, ghost m: Mean)
    returns (step: Ref, ghost mean': seq<Mean>)
    requires k.w == w && AtStage(k, rt.cells, rt.owned, mean, code, arg, read, src, m)
    requires src.xs != [] && !Ends(w, StageOf(rt.cells, code, arg), src.xs[0])
    modifies rt
    ensures Held(k, rt.cells, rt.owned, mean', step, m)
  {
    var g, ws := StageOf(rt.cells, code, arg), rt.cells[read].slots;
    var x, xs := Element(rt.cells, ws[0]), ws[1].ref;
    var head := if g.MapEach? then Raw(w.maps(g.f, x)) else ws[0];
    FollowingStands(w, g, src, mean[xs], m);
    ghost var rm := Following(w, g, mean[xs], m);
    var rest;
    rest, mean' := DeferRest(rt, code, arg, read, xs, w, k, mean, rm);
    step, mean' := SealCopy(rt, read, CONS, head, rest, k, mean', m);
  }

  /** A closure just made fits what it stands for with what it has captured. */
  lemma FitsNew(w: World, h: Heap, mean: seq<Mean>, code: nat, ws: seq<Word>, m: Mean)
    requires |mean| == |h| && FitsStage(w, h, mean, code, ws, m)
    ensures Fits(w, h + [Cell(1, ClosureCell(code), ws)], mean + [Nothing], |h|, m)
  {
    var h', mean' := h + [Cell(1, ClosureCell(code), ws)], mean + [Nothing];
    assert StageOf(h', code, ws[1]) == StageOf(h, code, ws[1]);
    assert mean'[ws[0].ref] == mean[ws[0].ref];
    assert FitsStage(w, h', mean', code, ws, m);
  }

  /** The argument for the stage over the rest. */
  function NextArgument(code: nat, arg: Word): Word {
    if code == TAKE && arg.Raw? then Raw(arg.value - 1) else arg
  }

  function OneMore(h: Heap, x: Ref): Heap
    requires Live(h, x)
  {
    h[x := h[x].(rc := h[x].rc + 1)]
  }

  /** With a reference to the rest, and the argument for it, the frame can defer the stage. */
  lemma NextStage(h: Heap, code: nat, arg: Word, xs: Ref, keep: multiset<Ref>)
    requires IsArgument(h, code, arg) && Live(h, xs)
    ensures IsArgument(OneMore(h, xs), code, NextArgument(code, arg))
    ensures StageOf(OneMore(h, xs), code, NextArgument(code, arg)) == Onward(StageOf(h, code, arg))
    ensures keep + PtrOf(arg) + multiset{xs} == keep + multiset{xs} + PtrOf(NextArgument(code, arg))
  {
    assert PtrOf(NextArgument(code, arg)) == PtrOf(arg);
  }

  /** The stage over the rest, which the step that was read still holds. */
  method DeferRest(rt: Runtime, code: nat, arg: Word, read: Ref, xs: Ref, w: World, ghost k: Start, ghost mean: seq<Mean>, ghost rm: Mean)
    returns (rest: Ref, ghost mean': seq<Mean>)
    requires k.w == w && rt.owned == k.keep + multiset{read} + PtrOf(arg) && InFrame(k, rt.cells, rt.owned, mean)
    requires Live(rt.cells, read) && |rt.cells[read].slots| == 2 && rt.cells[read].slots[1] == Ptr(xs) && IsSeq(rt.cells, xs)
    requires IsArgument(rt.cells, code, arg) && StagedFrom(w, Onward(StageOf(rt.cells, code, arg)), mean[xs], rm)
    modifies rt
    ensures rt.owned == k.keep + multiset{read} + multiset{rest} && InFrame(k, rt.cells, rt.owned, mean')
    ensures |mean'| == |mean| + 2 && mean <= mean' && rest == |mean| + 1 && mean'[rest] == rm && IsSeq(rt.cells, rest)
    ensures rt.cells[..|old(rt.cells)|] == OneMore(old(rt.cells), xs)
  {
    var next := ShareRest(rt, code, arg, read, xs, k, mean);
    ghost var h := rt.cells;
    rest, mean' := DeferStage(rt, code, xs, next, k.keep + multiset{read}, w, k, mean, rm);
    assert rt.cells[..|h|] == h;
  }

  method ShareRest(rt: Runtime, code: nat, arg: Word, read: Ref, xs: Ref, ghost k: Start, ghost mean: seq<Mean>) returns (next: Word)
    requires rt.owned == k.keep + multiset{read} + PtrOf(arg) && InFrame(k, rt.cells, rt.owned, mean)
    requires Live(rt.cells, read) && |rt.cells[read].slots| == 2 && rt.cells[read].slots[1] == Ptr(xs) && IsSeq(rt.cells, xs)
    requires IsArgument(rt.cells, code, arg)
    modifies rt
    ensures rt.owned == (k.keep + multiset{read}) + multiset{xs} + PtrOf(next) && InFrame(k, rt.cells, rt.owned, mean)
    ensures IsArgument(rt.cells, code, next) && StageOf(rt.cells, code, next) == Onward(StageOf(old(rt.cells), code, arg))
    ensures rt.cells == OneMore(old(rt.cells), xs)
  {
    NextStage(rt.cells, code, arg, xs, k.keep + multiset{read});
    ShareFrom(rt, read, xs, k, mean);
    next := NextArgument(code, arg);
  }

  method ShareFrom(rt: Runtime, read: Ref, xs: Ref, ghost k: Start, ghost mean: seq<Mean>)
    requires InFrame(k, rt.cells, rt.owned, mean) && Live(rt.cells, read) && |rt.cells[read].slots| == 2
    requires rt.cells[read].slots[1] == Ptr(xs) && IsSeq(rt.cells, xs)
    modifies rt
    ensures rt.owned == old(rt.owned) + multiset{xs} && InFrame(k, rt.cells, rt.owned, mean) && rt.cells == OneMore(old(rt.cells), xs)
  {
    SlotOwns(rt.cells, read, 1);
    Share(rt, xs, k, mean);
  }

  method DeferStage(rt: Runtime, code: nat, xs: Ref, arg: Word, ghost keep: multiset<Ref>, w: World, ghost k: Start, ghost mean: seq<Mean>, ghost rm: Mean)
    returns (rest: Ref, ghost mean': seq<Mean>)
    requires k.w == w && k.keep <= keep && rt.owned == keep + multiset{xs} + PtrOf(arg) && InFrame(k, rt.cells, rt.owned, mean)
    requires IsSeq(rt.cells, xs) && IsArgument(rt.cells, code, arg) && StagedFrom(w, StageOf(rt.cells, code, arg), mean[xs], rm)
    modifies rt
    ensures rt.owned == keep + multiset{rest} && InFrame(k, rt.cells, rt.owned, mean')
    ensures |mean'| == |mean| + 2 && mean <= mean' && rest == |mean| + 1 && mean'[rest] == rm && IsSeq(rt.cells, rest)
    ensures rt.cells[..|old(rt.cells)|] == old(rt.cells)
  {
    var ws := [Ptr(xs), arg];
    PtrsTwo(Ptr(xs), arg);
    FitsNew(w, rt.cells, mean, code, ws, rm);
    rest, mean' := Defer(rt, code, ws, keep, k, mean, rm);
  }

  method ShareSlot(rt: Runtime, t: Ref, i: nat, ghost k: Start, ghost mean: seq<Mean>)
    requires InFrame(k, rt.cells, rt.owned, mean) && Live(rt.cells, t) && i < |rt.cells[t].slots|
    requires rt.cells[t].slots[i].Ptr? ==> Live(rt.cells, rt.cells[t].slots[i].ref)
    modifies rt
    ensures rt.owned == old(rt.owned) + PtrOf(old(rt.cells)[t].slots[i]) && InFrame(k, rt.cells, rt.owned, mean)
    ensures SameKinds(old(rt.cells), rt.cells)
  {
    var x := rt.cells[t].slots[i];
    if x.Ptr? {
      SlotOwns(rt.cells, t, i);
      Share(rt, x.ref, k, mean);
    }
  }

  /** Counts may have changed, and nothing else. */
  ghost predicate SameKinds(h: Heap, h': Heap) {
    |h'| == |h| && forall r: Ref :: Live(h, r) ==> Live(h', r) && Alike(h[r], h'[r])
  }

  /** A thunk that starts takes references to what it has captured. */
  method ShareBoth(rt: Runtime, t: Ref, source: Ref, arg: Word, ghost k: Start, ghost mean: seq<Mean>)
    requires InFrame(k, rt.cells, rt.owned, mean) && rt.owned == k.keep && IsClosure(rt.cells, t)
    requires rt.cells[t].slots == [Ptr(source), arg] && IsSeq(rt.cells, source) && (arg.Ptr? ==> IsClosure(rt.cells, arg.ref))
    modifies rt
    ensures rt.owned == k.keep + PtrOf(arg) + multiset{source} && InFrame(k, rt.cells, rt.owned, mean)
    ensures SameKinds(old(rt.cells), rt.cells)
  {
    ShareSlot(rt, t, 1, k, mean);
    ShareSlot(rt, t, 0, k, mean);
  }
}
