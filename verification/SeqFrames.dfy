/** What a reader of lazy cells may rely on while cells are read, and the changes that leave it
    standing. */
module SeqFrames {
  import opened RcHeap
  import opened SeqPreds
  import opened SeqWorld
  import opened SeqMeaning

  // ---------- cells whose reads are under way ----------

  /** A cell whose read is under way, or was left by an exit: nobody can read through it. */
  ghost predicate Stuck(h: Heap, c: Ref) {
    IsSeq(h, c) && match h[c].kind.state {
      case RUNNING => true
      case FILTERING => true
      case FILTER => h[c].slots[0] == Null
      case _ => false
    }
  }

  /** No cell of a rank below `n` is stuck. */
  ghost predicate Quiet(h: Heap, mean: seq<Mean>, n: nat) {
    forall c: Ref :: Stuck(h, c) && c < |mean| ==> n <= mean[c].rank
  }

  ghost predicate ClearAt(h: Heap, mean: seq<Mean>, h': Heap, mean': seq<Mean>, c: Ref) {
    Stuck(h', c) ==> Stuck(h, c) && c < |mean| && c < |mean'| && mean'[c] == mean[c]
  }

  /** No cell but those in `busy` has become stuck. */
  ghost predicate Clear(h: Heap, mean: seq<Mean>, h': Heap, mean': seq<Mean>, busy: set<Ref>) {
    forall c: Ref :: c in busy || ClearAt(h, mean, h', mean', c)
  }

  lemma ClearSteps(h: Heap, mean: seq<Mean>, h1: Heap, mean1: seq<Mean>, h2: Heap, mean2: seq<Mean>, busy: set<Ref>)
    requires Clear(h, mean, h1, mean1, busy) && Clear(h1, mean1, h2, mean2, busy)
    ensures Clear(h, mean, h2, mean2, busy)
  {
    forall c: Ref ensures c in busy || ClearAt(h, mean, h2, mean2, c) {
      assert c in busy || (ClearAt(h, mean, h1, mean1, c) && ClearAt(h1, mean1, h2, mean2, c));
    }
  }

  lemma ClearQuiet(h: Heap, mean: seq<Mean>, h': Heap, mean': seq<Mean>, busy: set<Ref>, n: nat)
    requires Quiet(h, mean, n) && Clear(h, mean, h', mean', busy)
    requires forall b <- busy :: b < |mean'| ==> n <= mean'[b].rank
    ensures Quiet(h', mean', n)
  {
    forall c: Ref | Stuck(h', c) && c < |mean'| ensures n <= mean'[c].rank {
      assert c in busy || ClearAt(h, mean, h', mean', c);
    }
  }

  // ---------- what a read leaves as it was ----------

  /** The cells that the frames above are in the middle of reading. */
  ghost predicate Frozen(h: Heap, keep: multiset<Ref>, frozen: set<Ref>) {
    forall c <- frozen :: c in keep && Stuck(h, c)
  }

  ghost predicate SameFrozen(h: Heap, h': Heap, c: Ref) {
    && Live(h, c) && Live(h', c) && Alike(h[c], h'[c])
    && (h[c].rc == 1 ==> h'[c].rc == 1)
    && (|h[c].slots| == 2 && h[c].slots[1].Ptr? && IsPreds(h, h[c].slots[1].ref) ==>
          IsPreds(h', h[c].slots[1].ref) && Codes(h', h[c].slots[1].ref) == Codes(h, h[c].slots[1].ref))
  }

  ghost predicate IsDone(h: Heap, r: Ref) {
    IsSeq(h, r) && h[r].kind.state == DONE
  }

  /** What a reference stands for stays, and an evaluated cell keeps its step. */
  ghost predicate SameReference(h: Heap, mean: seq<Mean>, h': Heap, mean': seq<Mean>, r: Ref) {
    && Live(h, r) && Live(h', r) && r < |mean| && r < |mean'| && mean'[r] == mean[r]
    && (IsSeq(h, r) ==> IsSeq(h', r))
    && (IsClosure(h, r) ==> IsClosure(h', r) && h'[r].kind == h[r].kind)
    && (IsDone(h, r) ==> Alike(h[r], h'[r]))
  }

  /** What every read leaves as it was: what the caller's references stand for, and the cells
      whose reads are under way. */
  ghost predicate Evolved(h: Heap, mean: seq<Mean>, h': Heap, mean': seq<Mean>, keep: multiset<Ref>, frozen: set<Ref>) {
    && |h| <= |h'|
    && (forall r: Ref :: r in keep ==> SameReference(h, mean, h', mean', r))
    && (forall c <- frozen :: SameFrozen(h, h', c))
  }

  lemma EvolveSteps(h: Heap, mean: seq<Mean>, h1: Heap, mean1: seq<Mean>, h2: Heap, mean2: seq<Mean>,
                    keep: multiset<Ref>, keep1: multiset<Ref>, frozen: set<Ref>, frozen1: set<Ref>)
    requires Evolved(h, mean, h1, mean1, keep, frozen) && Evolved(h1, mean1, h2, mean2, keep1, frozen1)
    requires keep <= keep1 && frozen <= frozen1
    ensures Evolved(h, mean, h2, mean2, keep, frozen)
  {
    forall r: Ref | r in keep ensures SameReference(h, mean, h2, mean2, r) {
      assert SameReference(h, mean, h1, mean1, r) && SameReference(h1, mean1, h2, mean2, r);
    }
    forall c <- frozen ensures SameFrozen(h, h2, c) {
      assert SameFrozen(h, h1, c) && SameFrozen(h1, h2, c);
    }
  }

  lemma StillFrozen(h: Heap, h': Heap, mean: seq<Mean>, mean': seq<Mean>, keep: multiset<Ref>, keep': multiset<Ref>, frozen: set<Ref>)
    requires Frozen(h, keep, frozen) && Evolved(h, mean, h', mean', keep', frozen) && keep <= keep'
    ensures Frozen(h', keep', frozen)
  {
    forall c <- frozen ensures c in keep' && Stuck(h', c) {
      assert SameFrozen(h, h', c);
    }
  }

  // ---------- the frame of a read ----------

  /** Where a read started and what it must leave alone; the cells it is itself in the middle
      of; and, for a read that must not fail, the rank below which no cell was stuck. */
  datatype Start = Start(w: World, h: Heap, mean: seq<Mean>, keep: multiset<Ref>, frozen: set<Ref>,
                         busy: set<Ref>, calm: bool, rank: nat)

  ghost predicate InFrame(k: Start, h: Heap, owned: multiset<Ref>, mean: seq<Mean>) {
    && Counted(h, owned) && k.keep <= owned && Consistent(k.w, h, mean)
    && Frozen(k.h, k.keep, k.frozen) && Evolved(k.h, k.mean, h, mean, k.keep, k.frozen)
    && (k.calm ==> Quiet(k.h, k.mean, k.rank) && Clear(k.h, k.mean, h, mean, k.busy))
  }

  /** A read of a step that means `m`, with the cells in `k.busy` still in the reader's hands. */
  ghost predicate Held(k: Start, h: Heap, owned: multiset<Ref>, mean: seq<Mean>, step: Ref, m: Mean) {
    InFrame(k, h, owned, mean) && owned == k.keep + multiset{step} && StepOk(h, mean, step, m)
  }

  /** A finished read: the reference is replaced by one to a step that means `m`. */
  ghost predicate ReadDone(k: Start, h: Heap, owned: multiset<Ref>, mean: seq<Mean>, step: Ref, m: Mean) {
    Held(k.(busy := {}), h, owned, mean, step, m)
  }

  /** A read that was left: the reference is gone, and everything else stands. */
  ghost predicate ReadLeft(k: Start, h: Heap, owned: multiset<Ref>, mean: seq<Mean>) {
    !k.calm && InFrame(k, h, owned, mean) && owned == k.keep
  }

  ghost predicate ReadOver(k: Start, h: Heap, owned: multiset<Ref>, mean: seq<Mean>, out: Outcome, m: Mean) {
    if out.Step? then ReadDone(k, h, owned, mean, out.ref, m) else ReadLeft(k, h, owned, mean)
  }

  lemma NoLongerBusy(k: Start, h: Heap, owned: multiset<Ref>, mean: seq<Mean>)
    requires InFrame(k, h, owned, mean) && forall b <- k.busy :: !Stuck(h, b)
    ensures InFrame(k.(busy := {}), h, owned, mean)
  {
    if k.calm {
      forall c: Ref ensures ClearAt(k.h, k.mean, h, mean, c) {
        assert c in k.busy || ClearAt(k.h, k.mean, h, mean, c);
      }
    }
  }

  /** What a reader of its own makes of the heap, seen from the frame around it. */
  lemma FrameSteps(k: Start, h1: Heap, owned1: multiset<Ref>, mean1: seq<Mean>, k1: Start, h2: Heap, owned2: multiset<Ref>, mean2: seq<Mean>)
    requires InFrame(k, h1, owned1, mean1) && InFrame(k1, h2, owned2, mean2)
    requires k1.w == k.w && k1.h == h1 && k1.mean == mean1 && k1.busy == {} && (k.calm ==> k1.calm)
    requires k.keep <= k1.keep && k.frozen <= k1.frozen && k.keep <= owned2
    ensures InFrame(k, h2, owned2, mean2)
  {
    EvolveSteps(k.h, k.mean, h1, mean1, h2, mean2, k.keep, k1.keep, k.frozen, k1.frozen);
    if k.calm {
      forall c: Ref ensures c in k.busy || ClearAt(h1, mean1, h2, mean2, c) {
        assert c in k1.busy || ClearAt(h1, mean1, h2, mean2, c);
      }
      ClearSteps(k.h, k.mean, h1, mean1, h2, mean2, k.busy);
    }
  }

  lemma FrameThrough(k: Start, h: Heap, owned: multiset<Ref>, mean: seq<Mean>, h': Heap, owned': multiset<Ref>, mean': seq<Mean>)
    requires InFrame(k, h, owned, mean) && Counted(h', owned') && k.keep <= owned' && Consistent(k.w, h', mean')
    requires Evolved(h, mean, h', mean', k.keep, k.frozen) && Clear(h, mean, h', mean', k.busy)
    ensures InFrame(k, h', owned', mean')
  {
    EvolveSteps(k.h, k.mean, h, mean, h', mean', k.keep, k.keep, k.frozen, k.frozen);
    if k.calm { ClearSteps(k.h, k.mean, h, mean, h', mean', k.busy); }
  }

  lemma FrozenNow(k: Start, h: Heap, owned: multiset<Ref>, mean: seq<Mean>)
    requires InFrame(k, h, owned, mean)
    ensures Frozen(h, k.keep, k.frozen)
  {
    StillFrozen(k.h, h, k.mean, mean, k.keep, k.keep, k.frozen);
  }

  lemma QuietNow(k: Start, h: Heap, owned: multiset<Ref>, mean: seq<Mean>, n: nat)
    requires InFrame(k, h, owned, mean) && k.calm && n <= k.rank
    requires forall b <- k.busy :: b < |mean| ==> n <= mean[b].rank
    ensures Quiet(h, mean, n)
  {
    ClearQuiet(k.h, k.mean, h, mean, k.busy, n);
  }

  // ---------- the changes a read is made of ----------

  /** Freeing and counting alone is no change to what anyone can rely on. */
  lemma CountsEvolve(w: World, h: Heap, owned: multiset<Ref>, h': Heap, owned': multiset<Ref>, mean: seq<Mean>, keep: multiset<Ref>, frozen: set<Ref>)
    requires Counted(h, owned) && Counted(h', owned') && OnlyCounts(h, h') && Consistent(w, h, mean)
    requires keep <= owned && keep <= owned' && Frozen(h, keep, frozen)
    requires forall c <- frozen :: Live(h, c) && h[c].rc == 1 ==> owned'[c] <= owned[c]
    ensures Evolved(h, mean, h', mean, keep, frozen) && Consistent(w, h', mean)
  {
    StaysConsistent(w, h, h', owned', mean);
    forall r: Ref | r in keep ensures SameReference(h, mean, h', mean, r) {
      OwnedLives(h, owned, r);
      OwnedLives(h', owned', r);
    }
    forall c <- frozen ensures SameFrozen(h, h', c) {
      OwnedLives(h, owned, c);
      OwnedLives(h', owned', c);
      OutShrinks(h, h', c);
      assert CellOk(w, h, mean, c);
      if h[c].slots[1].Ptr? {
        SlotLives(h', owned', c, 1);
        SamePreds(h, h', owned', {}, h[c].slots[1].ref);
      }
    }
  }

  lemma CountsClear(h: Heap, h': Heap, mean: seq<Mean>, busy: set<Ref>)
    requires OnlyCounts(h, h') && |mean| == |h|
    ensures Clear(h, mean, h', mean, busy)
  {
    forall c: Ref ensures ClearAt(h, mean, h', mean, c) { }
  }

  lemma FrameCounts(k: Start, h: Heap, owned: multiset<Ref>, mean: seq<Mean>, h': Heap, owned': multiset<Ref>)
    requires InFrame(k, h, owned, mean) && OnlyCounts(h, h') && Counted(h', owned') && k.keep <= owned'
    requires forall c: Ref :: c in k.keep && IsSeq(h, c) && h[c].rc == 1 ==> owned'[c] <= owned[c]
    ensures InFrame(k, h', owned', mean)
  {
    FrozenNow(k, h, owned, mean);
    forall c <- k.frozen ensures Live(h, c) && h[c].rc == 1 ==> owned'[c] <= owned[c] { assert Stuck(h, c); }
    CountsEvolve(k.w, h, owned, h', owned', mean, k.keep, k.frozen);
    CountsClear(h, h', mean, k.busy);
    FrameThrough(k, h, owned, mean, h', owned', mean);
  }

  /** Gives up one of the frame's own references. */
  method Discard(rt: Runtime, x: Ref, ghost keep: multiset<Ref>, ghost k: Start, ghost mean: seq<Mean>)
    requires k.keep <= keep && rt.owned == keep + multiset{x} && InFrame(k, rt.cells, rt.owned, mean)
    modifies rt
    ensures rt.owned == keep && InFrame(k, rt.cells, rt.owned, mean) && OnlyCounts(old(rt.cells), rt.cells)
  {
    ghost var h, owned := rt.cells, rt.owned;
    rt.Drop(x, keep);
    FrameCounts(k, h, owned, mean, rt.cells, rt.owned);
  }

  /** The same while the frame holds the step it has read. */
  method DiscardBut(rt: Runtime, x: Ref, step: Ref, ghost k: Start, ghost mean: seq<Mean>, ghost m: Mean)
    requires rt.owned == k.keep + multiset{step} + multiset{x} && InFrame(k, rt.cells, rt.owned, mean)
    requires StepOk(rt.cells, mean, step, m)
    modifies rt
    ensures Held(k, rt.cells, rt.owned, mean, step, m)
  {
    ghost var h := rt.cells;
    Discard(rt, x, k.keep + multiset{step}, k, mean);
    OwnedLives(rt.cells, rt.owned, step);
    SameStep(h, rt.cells, rt.owned, mean, mean, step, m, {});
  }

  /** A cell changes state under a reader's hands. */
  lemma RestateEvolves(w: World, h: Heap, owned: multiset<Ref>, mean: seq<Mean>, keep: multiset<Ref>, frozen: set<Ref>, s: Ref, c: Cell)
    requires Counted(h, owned) && Consistent(w, h, mean) && keep <= owned && Frozen(h, keep, frozen)
    requires IsSeq(h, s) && !IsDone(h, s) && s !in frozen
    requires c.Cell? && c.kind.SeqCell? && |c.slots| == 2 && CellOk(w, h[s := c], mean, s)
    ensures Evolved(h, mean, h[s := c], mean, keep, frozen) && Consistent(w, h[s := c], mean)
  {
    var h' := h[s := c];
    RestateConsistent(w, h, mean, s, c);
    forall r: Ref | r in keep ensures SameReference(h, mean, h', mean, r) { OwnedLives(h, owned, r); }
    forall x <- frozen ensures SameFrozen(h, h', x) {
      assert Stuck(h, x) && CellOk(w, h, mean, x);
      if h[x].slots[1].Ptr? { KeepsPreds(h, s, c, h[x].slots[1].ref); }
    }
  }

  lemma FrameRestate(k: Start, h: Heap, owned: multiset<Ref>, mean: seq<Mean>, s: Ref, c: Cell, owned': multiset<Ref>)
    requires InFrame(k, h, owned, mean) && IsSeq(h, s) && !IsDone(h, s) && s !in k.frozen && s in k.busy
    requires Counted(h[s := c], owned') && k.keep <= owned'
    requires c.Cell? && c.kind.SeqCell? && |c.slots| == 2 && CellOk(k.w, h[s := c], mean, s)
    ensures InFrame(k, h[s := c], owned', mean)
  {
    FrozenNow(k, h, owned, mean);
    RestateEvolves(k.w, h, owned, mean, k.keep, k.frozen, s, c);
    forall r: Ref ensures r in k.busy || ClearAt(h, mean, h[s := c], mean, r) { }
    FrameThrough(k, h, owned, mean, h[s := c], owned', mean);
  }

  // ---------- changing a cell that only the frame sees ----------

  lemma NotSeen(h: Heap, r: Ref, i: nat, x: Ref)
    requires Live(h, r) && i < |h[r].slots| && h[r].slots[i].Ptr? && Out(h, x) == 0
    ensures h[r].slots[i].ref != x
  {
    SlotOwns(h, r, i);
  }

  predicate Other(r: Ref, x: Ref) {
    r != x
  }

  lemma UnseenFits(w: World, h: Heap, mean: seq<Mean>, t: Ref, tm: Mean, x: Ref, c: Cell, m: Mean)
    requires |mean| == |h| && Live(h, x) && Out(h, x) == 0 && t != x && c.Cell? && Fits(w, h, mean, t, tm)
    ensures Fits(w, h[x := c], mean[x := m], t, tm)
  {
    var others := iset r: Ref | Other(r, x);
    forall r: Ref | r in others ensures StaysAs(h, h[x := c], mean, mean[x := m], others, r) {
      if Live(h, r) {
        forall i | 0 <= i < |h[r].slots| && h[r].slots[i].Ptr? ensures h[r].slots[i].ref in others { NotSeen(h, r, i, x); }
      }
    }
    FitsKept(w, h, h[x := c], mean, mean[x := m], others, t, tm);
  }

  lemma UnseenCell(w: World, h: Heap, mean: seq<Mean>, r: Ref, x: Ref, c: Cell, m: Mean)
    requires |mean| == |h| && Live(h, x) && Out(h, x) == 0 && r != x && c.Cell?
    requires Live(h, r) && h[r].kind.SeqCell? && CellOk(w, h, mean, r)
    ensures CellOk(w, h[x := c], mean[x := m], r)
  {
    var ws := h[r].slots;
    if ws[0].Ptr? { NotSeen(h, r, 0, x); }
    if ws[1].Ptr? { NotSeen(h, r, 1, x); }
    match h[r].kind.state
    case THUNK => UnseenFits(w, h, mean, ws[0].ref, mean[r], x, c, m);
    case RUNNING => UnseenFits(w, h, mean, ws[0].ref, mean[r], x, c, m);
    case DONE => UnseenStep(h, mean, ws[0].ref, mean[r], x, c, m);
    case FILTER => UnseenPreds(h, ws[1].ref, x, c); if ws[0].Ptr? { UnseenSource(w, h, mean, r, x, c, m); }
    case FILTERING => UnseenPreds(h, ws[1].ref, x, c);
  }

  lemma UnseenSource(w: World, h: Heap, mean: seq<Mean>, r: Ref, x: Ref, c: Cell, m: Mean)
    requires |mean| == |h| && Live(h, x) && r != x && c.Cell? && IsSeq(h, r)
    requires h[r].slots[1].Ptr? && IsPreds(h, h[r].slots[1].ref) && StageOk(w, h, mean, r)
    requires h[r].slots[0].ref != x && h[r].slots[1].ref != x
    requires var p := h[r].slots[1].ref; IsPreds(h[x := c], p) && Codes(h[x := c], p) == Codes(h, p)
    ensures StageOk(w, h[x := c], mean[x := m], r)
  {
  }

  lemma UnseenStep(h: Heap, mean: seq<Mean>, step: Ref, sm: Mean, x: Ref, c: Cell, m: Mean)
    requires |mean| == |h| && Live(h, x) && Out(h, x) == 0 && step != x && StepOk(h, mean, step, sm)
    ensures StepOk(h[x := c], mean[x := m], step, sm)
  {
    if h[step].slots != [] {
      if h[step].slots[0].Ptr? { NotSeen(h, step, 0, x); }
      NotSeen(h, step, 1, x);
    }
  }

  lemma UnseenPreds(h: Heap, p: Ref, x: Ref, c: Cell)
    requires IsPreds(h, p) && p != x && Live(h, x) && Out(h, x) == 0 && c.Cell?
    ensures IsPreds(h[x := c], p) && Codes(h[x := c], p) == Codes(h, p)
  {
    if h[p].kind.ArrayCell? {
      forall i | 0 <= i < |h[p].slots| ensures h[p].slots[i].ref != x { NotSeen(h, p, i, x); }
    }
  }

  /** A cell of the frame's own, and the cell it may turn into. */
  ghost predicate FitsUnseen(w: World, h: Heap, mean: seq<Mean>, x: Ref, c: Cell, m: Mean) {
    && Live(h, x) && Out(h, x) == 0 && c.Cell? && |mean| == |h| && !Stuck(h[x := c], x)
    && ((h[x].kind.VariantCell? && c.kind.VariantCell?)
        || (IsSeq(h, x) && c.kind.SeqCell? && |c.slots| == 2 && CellOk(w, h[x := c], mean[x := m], x)))
  }

  lemma UnseenChange(w: World, h: Heap, owned: multiset<Ref>, mean: seq<Mean>, keep: multiset<Ref>, frozen: set<Ref>,
                     x: Ref, c: Cell, m: Mean)
    requires Counted(h, owned) && Consistent(w, h, mean) && keep <= owned && Frozen(h, keep, frozen)
    requires FitsUnseen(w, h, mean, x, c, m) && x !in keep
    ensures Consistent(w, h[x := c], mean[x := m]) && Evolved(h, mean, h[x := c], mean[x := m], keep, frozen)
  {
    var h', mean' := h[x := c], mean[x := m];
    forall r: Ref | Live(h', r) && h'[r].kind.SeqCell? ensures CellOk(w, h', mean', r) {
      if r != x { UnseenCell(w, h, mean, r, x, c, m); }
    }
    forall r: Ref | r in keep ensures SameReference(h, mean, h', mean', r) { OwnedLives(h, owned, r); }
    forall f <- frozen ensures SameFrozen(h, h', f) {
      assert Stuck(h, f) && CellOk(w, h, mean, f) && f != x;
      if h[f].slots[1].Ptr? { NotSeen(h, f, 1, x); UnseenPreds(h, h[f].slots[1].ref, x, c); }
    }
  }

  lemma FrameChange(k: Start, h: Heap, owned: multiset<Ref>, mean: seq<Mean>, x: Ref, c: Cell, m: Mean, owned': multiset<Ref>)
    requires InFrame(k, h, owned, mean) && FitsUnseen(k.w, h, mean, x, c, m) && x !in k.keep
    requires Counted(h[x := c], owned') && k.keep <= owned'
    ensures InFrame(k, h[x := c], owned', mean[x := m])
  {
    FrozenNow(k, h, owned, mean);
    UnseenChange(k.w, h, owned, mean, k.keep, k.frozen, x, c, m);
    var h', mean' := h[x := c], mean[x := m];
    forall r: Ref ensures ClearAt(h, mean, h', mean', r) { }
    FrameThrough(k, h, owned, mean, h', owned', mean');
  }

  /** A new cell changes nothing for the others. */
  lemma AddedChange(w: World, h: Heap, owned: multiset<Ref>, owned': multiset<Ref>, mean: seq<Mean>, keep: multiset<Ref>, frozen: set<Ref>,
                    c: Cell, m: Mean)
    requires Counted(h, owned) && Counted(h + [c], owned') && Consistent(w, h, mean) && keep <= owned && Frozen(h, keep, frozen)
    requires c.Cell? && (c.kind.SeqCell? ==> CellOk(w, h + [c], mean + [m], |h|))
    ensures Consistent(w, h + [c], mean + [m]) && Evolved(h, mean, h + [c], mean + [m], keep, frozen)
  {
    var h', mean' := h + [c], mean + [m];
    forall r: Ref | Live(h', r) && h'[r].kind.SeqCell? ensures CellOk(w, h', mean', r) {
      if r < |h| { SameCell(w, h, h', owned', mean, mean', r, {}); }
    }
    forall r: Ref | r in keep ensures SameReference(h, mean, h', mean', r) { OwnedLives(h, owned, r); }
    forall f <- frozen ensures SameFrozen(h, h', f) {
      assert Stuck(h, f) && CellOk(w, h, mean, f);
      if h[f].slots[1].Ptr? { SamePreds(h, h', owned', {}, h[f].slots[1].ref); }
    }
  }

  lemma FrameAdded(k: Start, h: Heap, owned: multiset<Ref>, mean: seq<Mean>, c: Cell, m: Mean, owned': multiset<Ref>)
    requires InFrame(k, h, owned, mean) && Counted(h + [c], owned') && k.keep <= owned'
    requires c.Cell? && (c.kind.SeqCell? ==> CellOk(k.w, h + [c], mean + [m], |h|) && !Stuck(h + [c], |h|))
    ensures InFrame(k, h + [c], owned', mean + [m])
  {
    FrozenNow(k, h, owned, mean);
    AddedChange(k.w, h, owned, owned', mean, k.keep, k.frozen, c, m);
    forall r: Ref ensures ClearAt(h, mean, h + [c], mean + [m], r) { }
    FrameThrough(k, h, owned, mean, h + [c], owned', mean + [m]);
  }
}
