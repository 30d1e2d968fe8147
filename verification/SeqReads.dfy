/** Reading lazy cells. A read consumes the reader's reference and gives a step: the first
    element with a cell for the rest, or the empty step. */
module SeqReads {
  import opened RcHeap
  import opened SeqPreds
  import opened Values
  import opened SeqWorld
  import opened SeqMeaning
  import opened SeqAbsorb
  import opened SeqFrames

  // ---------- what running a thunk may do ----------

  ghost predicate Ready(w: World, h: Heap, owned: multiset<Ref>, mean: seq<Mean>, frozen: set<Ref>) {
    Counted(h, owned) && Consistent(w, h, mean) && Frozen(h, owned, frozen)
  }

  /** Running a thunk that yields `m`, as a read: nothing of what the frames hold is consumed,
      and a calm thunk does not fail while no cell of a lower rank is stuck. */
  ghost function AsRead(w: World, h: Heap, owned: multiset<Ref>, mean: seq<Mean>, frozen: set<Ref>, m: Mean): Start {
    Start(w, h, mean, owned, frozen, {}, m.calm && Quiet(h, mean, m.rank), m.rank)
  }

  function Got(owned: multiset<Ref>, out: Outcome): multiset<Ref> {
    if out.Step? then owned + multiset{out.ref} else owned
  }

  ghost predicate RanWell(k: Start, t: Ref, m: Mean, mean': seq<Mean>) {
    var (h', out) := k.w.run(k.h, t);
    ReadOver(k, h', Got(k.keep, out), mean', out, m)
  }

  /** A closure whose code is not of the library. */
  predicate Foreign(h: Heap, t: Ref) {
    IsClosure(h, t) && !OfLibrary(h[t].kind.code)
  }

  /** A foreign thunk that fits `m` gives a step that means `m`, or is left like any read. */
  ghost predicate HonestAt(w: World, h: Heap, owned: multiset<Ref>, mean: seq<Mean>, frozen: set<Ref>, t: Ref, m: Mean) {
    Ready(w, h, owned, mean, frozen) && Foreign(h, t) && Fits(w, h, mean, t, m) ==>
      exists mean' :: RanWell(AsRead(w, h, owned, mean, frozen, m), t, m, mean')
  }

  ghost predicate Honest(w: World) {
    forall h, owned, mean, frozen, t, m :: HonestAt(w, h, owned, mean, frozen, t, m)
  }

  /** A program that defers nothing but what the library defers is honest. */
  lemma LibraryIsHonest(w: World)
    requires forall c, m :: !w.gives(c, m)
    ensures Honest(w)
  {
    forall h, owned, mean, frozen, t, m ensures HonestAt(w, h, owned, mean, frozen, t, m) {
      assert Foreign(h, t) ==> !Fits(w, h, mean, t, m);
    }
  }

  /** Runs a foreign thunk. */
  method RunForeign(rt: Runtime, t: Ref, w: World, ghost mean: seq<Mean>, ghost frozen: set<Ref>, ghost m: Mean)
    returns (out: Outcome, ghost mean': seq<Mean>)
    requires Honest(w) && Ready(w, rt.cells, rt.owned, mean, frozen) && Fits(w, rt.cells, mean, t, m) && Foreign(rt.cells, t)
    modifies rt
    ensures ReadOver(AsRead(w, old(rt.cells), old(rt.owned), mean, frozen, m), rt.cells, rt.owned, mean', out, m)
  {
    ghost var k := AsRead(w, rt.cells, rt.owned, mean, frozen, m);
    assert HonestAt(w, rt.cells, rt.owned, mean, frozen, t, m);
    var ran := w.run(rt.cells, t);
    out := ran.1;
    mean' :| RanWell(k, t, m, mean');
    rt.cells, rt.owned := ran.0, Got(rt.owned, out);
  }

  /** What a thunk did, seen by the reader of the cell that deferred it. */
  lemma ThunkOver(k: Start, h: Heap, owned: multiset<Ref>, mean: seq<Mean>, frozen: set<Ref>, m: Mean,
                  h': Heap, owned': multiset<Ref>, mean': seq<Mean>, out: Outcome)
    requires InFrame(k, h, owned, mean) && Frozen(h, owned, frozen) && k.frozen <= frozen
    requires k.calm ==> m.calm && Quiet(h, mean, m.rank)
    requires ReadOver(AsRead(k.w, h, owned, mean, frozen, m), h', owned', mean', out, m)
    ensures InFrame(k, h', owned', mean') && owned' == Got(owned, out)
    ensures Evolved(h, mean, h', mean', owned, frozen)
    ensures if out.Step? then StepOk(h', mean', out.ref, m) else !k.calm
  {
    var k1 := AsRead(k.w, h, owned, mean, frozen, m);
    assert k1.(busy := {}) == k1;
    FrameSteps(k, h, owned, mean, k1, h', owned', mean');
  }

  // ---------- evaluated cells ----------

  /** The cell `s` holds its step. */
  ghost predicate Evaluated(h: Heap, s: Ref, step: Ref) {
    IsDone(h, s) && h[s].slots[0] == Ptr(step)
  }

  /** Once a shared cell is read, it holds the step that was read. */
  ghost predicate Recorded(h: Heap, s: Ref, out: Outcome) {
    out.Step? ==> Evaluated(h, s, out.ref)
  }

  /** The step of an evaluated cell; consumes the reference to the cell. */
  method Take(rt: Runtime, s: Ref, ghost k: Start, ghost mean: seq<Mean>) returns (step: Ref)
    requires rt.owned == k.keep + multiset{s} && InFrame(k, rt.cells, rt.owned, mean) && IsDone(rt.cells, s)
    modifies rt
    ensures Held(k, rt.cells, rt.owned, mean, step, mean[s])
    ensures Evaluated(old(rt.cells), s, step) && (s in k.keep ==> Evaluated(rt.cells, s, step))
    ensures OnlyCounts(old(rt.cells), rt.cells)
  {
    ghost var h, owned := rt.cells, rt.owned;
    assert CellOk(k.w, h, mean, s);
    step := rt.cells[s].slots[0].ref;
    TakeHeld(rt, s, step, k.keep);
    forall c: Ref | c in k.keep && IsSeq(h, c) && h[c].rc == 1 ensures rt.owned[c] <= owned[c] { assert c != step; }
    FrameCounts(k, h, owned, mean, rt.cells, rt.owned);
    OwnedLives(rt.cells, rt.owned, step);
    SameStep(h, rt.cells, rt.owned, mean, mean, step, mean[s], {});
    if s in k.keep { OwnedLives(rt.cells, rt.owned, s); }
  }

  method TakeHeld(rt: Runtime, s: Ref, held: Ref, ghost keep: multiset<Ref>)
    requires rt.Valid() && rt.owned == keep + multiset{s} && IsSeq(rt.cells, s)
    requires rt.cells[s].slots == [Ptr(held), Null] && Live(rt.cells, held) && held != s
    modifies rt
    ensures rt.Valid() && rt.owned == keep + multiset{held} && OnlyCounts(old(rt.cells), rt.cells)
  {
    OwnedLives(rt.cells, rt.owned, s);
    var unique := rt.CheckUnique(s);
    if unique {
      Empty(rt, s, held, keep);
    } else {
      rt.Incref(held);
      assert rt.owned == keep + multiset{held} + multiset{s};
      rt.Drop(s, keep + multiset{held});
    }
  }

  /** Takes what an unshared cell's slot holds, and frees the cell. */
  method Empty(rt: Runtime, s: Ref, held: Ref, ghost keep: multiset<Ref>)
    requires rt.Valid() && rt.owned == keep + multiset{s} && IsSeq(rt.cells, s) && rt.cells[s].rc == 1
    requires rt.cells[s].slots == [Ptr(held), Null]
    modifies rt
    ensures rt.Valid() && rt.owned == keep + multiset{held} && rt.cells == old(rt.cells)[s := Free]
  {
    PtrsTwo(Ptr(held), Null);
    PtrsTwo(Null, Null);
    NoRefs();
    rt.Write(s, rt.cells[s].kind, [Null, Null], keep + multiset{held} + multiset{s});
    rt.Drop(s, keep + multiset{held});
  }

  // ---------- thunks ----------

  /** What a reader must bring. The cell it reads has a rank below which nothing is stuck, if it
      is a read that must not fail. */
  ghost predicate CanRead(k: Start, h: Heap, owned: multiset<Ref>, s: Ref) {
    && Honest(k.w) && k.h == h && k.busy == {} && owned == k.keep + multiset{s}
    && InFrame(k, h, owned, k.mean) && IsSeq(h, s)
    && (k.calm ==> k.mean[s].calm && k.mean[s].rank < k.rank)
  }

  /** A reader that begins here can read. */
  lemma StartRead(w: World, h: Heap, mean: seq<Mean>, keep: multiset<Ref>, frozen: set<Ref>, calm: bool, rank: nat, s: Ref)
    requires Honest(w) && Counted(h, keep + multiset{s}) && Consistent(w, h, mean) && Frozen(h, keep, frozen) && IsSeq(h, s)
    requires calm ==> mean[s].calm && Quiet(h, mean, rank) && mean[s].rank < rank
    ensures CanRead(Start(w, h, mean, keep, frozen, {}, calm, rank), h, keep + multiset{s}, s)
  {
    var owned := keep + multiset{s};
    CountsEvolve(w, h, owned, h, owned, mean, keep, frozen);
  }

  /** The thunk leaves a cell that the frame alone sees, and the cell is freed. */
  method Unthunk(rt: Runtime, s: Ref, thunk: Ref, ghost k: Start)
    requires CanRead(k, rt.cells, rt.owned, s) && rt.cells[s].rc == 1
    requires rt.cells[s].slots == [Ptr(thunk), Null] && Fits(k.w, rt.cells, k.mean, thunk, k.mean[s])
    modifies rt
    ensures rt.owned == k.keep + multiset{thunk} && InFrame(k, rt.cells, rt.owned, k.mean)
    ensures Fits(k.w, rt.cells, k.mean, thunk, k.mean[s])
  {
    ghost var h, owned := rt.cells, rt.owned;
    Empty(rt, s, thunk, k.keep);
    FrameCounts(k, h, owned, k.mean, rt.cells, rt.owned);
    OwnedLives(rt.cells, rt.owned, thunk);
    MildFits(k.w, h, rt.cells, rt.owned, k.mean, k.mean, thunk, k.mean[s], {});
  }

  /** A cell that the frame is in the middle of reading, and that others may see. */
  ghost predicate InHands(k: Start, h: Heap, owned: multiset<Ref>, mean: seq<Mean>, s: Ref) {
    && InFrame(k, h, owned, mean) && k.busy == {s} && s !in k.frozen
    && IsSeq(h, s) && h[s].kind.state in {RUNNING, FILTER, FILTERING}
  }

  method MarkRunning(rt: Runtime, s: Ref, thunk: Ref, ghost k: Start)
    requires CanRead(k, rt.cells, rt.owned, s) && rt.cells[s].kind.state == THUNK
    requires rt.cells[s].slots == [Ptr(thunk), Null] && Fits(k.w, rt.cells, k.mean, thunk, k.mean[s])
    modifies rt
    ensures rt.owned == old(rt.owned) && InFrame(k.(busy := {s}), rt.cells, rt.owned, k.mean)
    ensures IsSeq(rt.cells, s) && rt.cells[s].kind == SeqCell(RUNNING) && rt.cells[s].slots == [Ptr(thunk), Null]
    ensures Fits(k.w, rt.cells, k.mean, thunk, k.mean[s]) && s !in k.frozen
  {
    ghost var h := rt.cells;
    assert !Stuck(h, s);
    rt.Write(s, SeqCell(RUNNING), rt.cells[s].slots, rt.owned);
    KeepsFit(k.w, h, k.mean, s, rt.cells[s], thunk, k.mean[s]);
    assert CellOk(k.w, rt.cells, k.mean, s);
    FrameRestate(k.(busy := {s}), h, rt.owned, k.mean, s, rt.cells[s], rt.owned);
  }

  /** An exit past a cell that is being read: the cell has its thunk again, or is a stage
      without a source, and the reference of the frame that was reading it goes. */
  method Abandon(rt: Runtime, s: Ref, ghost k: Start, ghost mean: seq<Mean>)
    requires rt.owned == k.keep + multiset{s} && InHands(k, rt.cells, rt.owned, mean, s)
    requires rt.cells[s].kind.state in {RUNNING, FILTERING} && !k.calm
    modifies rt
    ensures ReadLeft(k, rt.cells, rt.owned, mean)
  {
    ghost var h, owned := rt.cells, rt.owned;
    assert CellOk(k.w, h, mean, s);
    var back := if rt.cells[s].kind.state == FILTERING then FILTER else THUNK;
    rt.Write(s, SeqCell(back), rt.cells[s].slots, rt.owned);
    RestoredCell(k.w, h, mean, s, rt.cells[s]);
    FrameRestate(k, h, owned, mean, s, rt.cells[s], rt.owned);
    Discard(rt, s, k.keep, k, mean);
  }

  lemma RestoredCell(w: World, h: Heap, mean: seq<Mean>, s: Ref, c: Cell)
    requires |mean| == |h| && IsSeq(h, s) && CellOk(w, h, mean, s) && h[s].kind.state in {RUNNING, FILTERING}
    requires c.Cell? && c.slots == h[s].slots && c.kind == SeqCell(if h[s].kind.state == FILTERING then FILTER else THUNK)
    ensures CellOk(w, h[s := c], mean, s)
  {
    if h[s].kind.state == FILTERING {
      KeepsPreds(h, s, c, h[s].slots[1].ref);
    } else {
      KeepsFit(w, h, mean, s, c, h[s].slots[0].ref, mean[s]);
    }
  }

  /** A shared cell's step is known: it is stored, and the reader gets a reference to it. */
  method Finish(rt: Runtime, s: Ref, held: Ref, known: Ref, ghost k: Start, ghost mean: seq<Mean>) returns (step: Ref)
    requires rt.owned == k.keep + multiset{s} + multiset{known} && InHands(k, rt.cells, rt.owned, mean, s)
    requires Ptrs(rt.cells[s].slots) == multiset{held} && StepOk(rt.cells, mean, known, mean[s])
    modifies rt
    ensures ReadDone(k, rt.cells, rt.owned, mean, step, mean[s])
    ensures s in k.keep ==> Evaluated(rt.cells, s, step)
  {
    Settle(rt, s, held, known, k, mean);
    NoLongerBusy(k, rt.cells, rt.owned, mean);
    step := Take(rt, s, k.(busy := {}), mean);
  }

  /** The step takes the place of what the cell held, which is released only then. */
  method Settle(rt: Runtime, s: Ref, held: Ref, step: Ref, ghost k: Start, ghost mean: seq<Mean>)
    requires rt.owned == k.keep + multiset{s} + multiset{step} && InHands(k, rt.cells, rt.owned, mean, s)
    requires Ptrs(rt.cells[s].slots) == multiset{held} && StepOk(rt.cells, mean, step, mean[s])
    modifies rt
    ensures rt.owned == k.keep + multiset{s} && InFrame(k, rt.cells, rt.owned, mean) && IsDone(rt.cells, s)
  {
    ghost var h, owned := rt.cells, rt.owned;
    PtrsTwo(Ptr(step), Null);
    rt.Write(s, SeqCell(DONE), [Ptr(step), Null], k.keep + multiset{s} + multiset{held});
    SettledCell(k.w, h, mean, s, rt.cells[s], step);
    FrameRestate(k, h, owned, mean, s, rt.cells[s], rt.owned);
    Discard(rt, held, k.keep + multiset{s}, k, mean);
    OwnedLives(rt.cells, rt.owned, s);
  }

  lemma SettledCell(w: World, h: Heap, mean: seq<Mean>, s: Ref, c: Cell, step: Ref)
    requires |mean| == |h| && IsSeq(h, s) && StepOk(h, mean, step, mean[s])
    requires c.Cell? && c.kind == SeqCell(DONE) && c.slots == [Ptr(step), Null]
    ensures CellOk(w, h[s := c], mean, s)
  {
  }
}
