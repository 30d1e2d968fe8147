/** Reading any cell. A read may run the thunk of the cell, and a thunk of the library reads the
    cells that it has captured: each of these reads is of a lower rank. */
module SeqForce {
  import opened RcHeap
  import opened SeqPreds
  import opened SeqWorld
  import opened SeqMeaning
  import opened SeqAbsorb
  import opened SeqFrames
  import opened SeqReads
  import opened SeqFilter
  import opened SeqThunks

  // ---------- running a thunk ----------

  /** Runs a thunk that fits `m`, for a reader that holds it. */
  method RunThunk(rt: Runtime, t: Ref, w: World, ghost mean: seq<Mean>, ghost frozen: set<Ref>, ghost m: Mean, ghost n: nat)
    returns (out: Outcome, ghost mean': seq<Mean>)
    requires Honest(w) && Ready(w, rt.cells, rt.owned, mean, frozen) && Fits(w, rt.cells, mean, t, m) && m.rank <= n
    modifies rt
    ensures ReadOver(AsRead(w, old(rt.cells), old(rt.owned), mean, frozen, m), rt.cells, rt.owned, mean', out, m)
    decreases n, 1
  {
    var code := rt.cells[t].kind.code;
    if code == RANGE {
      out, mean' := RunRange(rt, t, w, mean, frozen, m);
    } else if IsStageCode(code) {
      out, mean' := RunStage(rt, t, w, mean, frozen, m, n);
    } else if code == DROP {
      out, mean' := RunDrop(rt, t, w, mean, frozen, m, n);
    } else {
      out, mean' := RunForeign(rt, t, w, mean, frozen, m);
    }
  }

  /** A read from within a thunk, by a frame that holds `keep` beside the cell. */
  method ForceWithin(rt: Runtime, s: Ref, w: World, ghost keep: multiset<Ref>, ghost k: Start, ghost mean: seq<Mean>, ghost n: nat)
    returns (out: Outcome, ghost mean': seq<Mean>)
    requires k.w == w && Honest(w) && k.busy == {} && k.keep <= keep && rt.owned == keep + multiset{s}
    requires InFrame(k, rt.cells, rt.owned, mean) && IsSeq(rt.cells, s) && mean[s].rank <= n
    requires k.calm ==> mean[s].calm && mean[s].rank < k.rank
    modifies rt
    ensures InFrame(k, rt.cells, rt.owned, mean') && rt.owned == Got(keep, out)
    ensures if out.Step? then StepOk(rt.cells, mean', out.ref, mean[s]) else !k.calm
    ensures forall r: Ref :: r in keep ==> SameReference(old(rt.cells), mean, rt.cells, mean', r)
    decreases n, 7
  {
    ghost var h, owned, r := rt.cells, rt.owned, mean[s].rank + 1;
    FrozenNow(k, h, owned, mean);
    if k.calm { QuietNow(k, h, owned, mean, r); }
    StartRead(w, h, mean, keep, k.frozen, k.calm, r, s);
    ghost var k1 := Start(w, h, mean, keep, k.frozen, {}, k.calm, r);
    out, mean' := Force(rt, s, w, k1, n);
    assert k1.(busy := {}) == k1;
    FrameSteps(k, h, owned, mean, k1, rt.cells, rt.owned, mean');
  }

  /** The thunk of a lazy map, of `take` or of `take_while`: reads the source that it has captured,
      and makes a step of the step. */
  method RunStage(rt: Runtime, t: Ref, w: World, ghost mean: seq<Mean>, ghost frozen: set<Ref>, ghost m: Mean, ghost n: nat)
    returns (out: Outcome, ghost mean': seq<Mean>)
    requires Honest(w) && Ready(w, rt.cells, rt.owned, mean, frozen) && IsClosure(rt.cells, t) && IsStageCode(rt.cells[t].kind.code)
    requires FitsStage(w, rt.cells, mean, rt.cells[t].kind.code, rt.cells[t].slots, m) && m.rank <= n
    modifies rt
    ensures ReadOver(AsRead(w, old(rt.cells), old(rt.owned), mean, frozen, m), rt.cells, rt.owned, mean', out, m)
    ensures var ws := old(rt.cells)[t].slots;
      out.Step? ==> !ExitsFirst(w, StageOf(old(rt.cells), old(rt.cells)[t].kind.code, ws[1]), mean[ws[0].ref].xs)
    decreases n, 0, 2
  {
    ghost var k := AsRead(w, rt.cells, rt.owned, mean, frozen, m);
    Begins(w, rt.cells, rt.owned, mean, frozen, m);
    var code, source, arg := rt.cells[t].kind.code, rt.cells[t].slots[0].ref, rt.cells[t].slots[1];
    var g := StageOf(rt.cells, code, arg);
    if Idle(g) {
      var step;
      step, mean' := End(rt, k, mean, m);
      return Step(step), mean';
    }
    ShareBoth(rt, t, source, arg, k, mean);
    out, mean' := StageRead(rt, code, source, arg, w, k, mean, m, n);
  }

  /** The frame of a stage holds its source and its argument, and reads the source. */
  method StageRead(rt: Runtime, code: nat, source: Ref, arg: Word, w: World, ghost k: Start, ghost mean: seq<Mean>, ghost m: Mean, ghost n: nat)
    returns (out: Outcome, ghost mean': seq<Mean>)
    requires k.w == w && Honest(w) && k.busy == {} && rt.owned == k.keep + PtrOf(arg) + multiset{source}
    requires InFrame(k, rt.cells, rt.owned, mean) && IsSeq(rt.cells, source) && IsArgument(rt.cells, code, arg)
    requires !Idle(StageOf(rt.cells, code, arg)) && StagedFrom(w, StageOf(rt.cells, code, arg), mean[source], m)
    requires (k.calm ==> m.calm && m.rank <= k.rank) && m.rank <= n
    modifies rt
    ensures ReadOver(k, rt.cells, rt.owned, mean', out, m)
    ensures out.Step? ==> !ExitsFirst(w, StageOf(old(rt.cells), code, arg), mean[source].xs)
    decreases n, 0, 0
  {
    ghost var src := mean[source];
    out, mean' := ForceWithin(rt, source, w, k.keep + PtrOf(arg), k, mean, src.rank);
    if arg.Ptr? { assert SameReference(old(rt.cells), mean, rt.cells, mean', arg.ref); }
    if out.Step? {
      out, mean' := StageStep(rt, code, arg, out.ref, w, k, mean', src, m);
    } else {
      assert k.(busy := {}) == k;
      Release(rt, arg, k.keep, k, mean');
    }
  }

  /** The thunk of `drop`: passes over the first elements, and reads on. */
  method RunDrop(rt: Runtime, t: Ref, w: World, ghost mean: seq<Mean>, ghost frozen: set<Ref>, ghost m: Mean, ghost n: nat)
    returns (out: Outcome, ghost mean': seq<Mean>)
    requires Honest(w) && Ready(w, rt.cells, rt.owned, mean, frozen) && IsClosure(rt.cells, t) && HasSource(rt.cells, mean, rt.cells[t].slots)
    requires rt.cells[t].slots[1].Raw? && DroppedFrom(rt.cells[t].slots[1].value, mean[rt.cells[t].slots[0].ref], m) && m.rank <= n
    modifies rt
    ensures ReadOver(AsRead(w, old(rt.cells), old(rt.owned), mean, frozen, m), rt.cells, rt.owned, mean', out, m)
    decreases n, 0, 2
  {
    ghost var k := AsRead(w, rt.cells, rt.owned, mean, frozen, m);
    Begins(w, rt.cells, rt.owned, mean, frozen, m);
    var s, i := rt.cells[t].slots[0].ref, rt.cells[t].slots[1].value;
    SlotOwns(rt.cells, t, 0);
    Share(rt, s, k, mean);
    out, mean' := DropOn(rt, s, i, w, k, mean, m, n);
  }

  /** There are `i` elements of `s` still to be passed over. */
  ghost predicate DropState(k: Start, h: Heap, owned: multiset<Ref>, mean: seq<Mean>, s: Ref, i: int, m: Mean) {
    && InFrame(k, h, owned, mean) && owned == k.keep + multiset{s} && IsSeq(h, s) && k.busy == {}
    && DroppedFrom(i, mean[s], m) && (k.calm ==> m.calm && m.rank <= k.rank)
  }

  method DropOn(rt: Runtime, source: Ref, count: int, w: World, ghost k: Start, ghost mean: seq<Mean>, ghost m: Mean, ghost n: nat)
    returns (out: Outcome, ghost mean': seq<Mean>)
    requires k.w == w && Honest(w) && DropState(k, rt.cells, rt.owned, mean, source, count, m) && m.rank <= n
    modifies rt
    ensures ReadOver(k, rt.cells, rt.owned, mean', out, m)
    decreases n, 0, 1
  {
    var s, i, over := source, count, false;
    mean' := mean;
    while i > 0
      invariant DropState(k, rt.cells, rt.owned, mean', s, i, m)
      decreases i
    {
      over, out, s, mean' := PassOver(rt, s, i, w, k, mean', m, n);
      if over { return; }
      i := i - 1;
    }
    out, mean' := ReadOn(rt, s, i, w, k, mean', m, n);
  }

  method ReadOn(rt: Runtime, s: Ref, i: int, w: World, ghost k: Start, ghost mean: seq<Mean>, ghost m: Mean, ghost n: nat)
    returns (out: Outcome, ghost mean': seq<Mean>)
    requires k.w == w && Honest(w) && DropState(k, rt.cells, rt.owned, mean, s, i, m) && i <= 0 && m.rank <= n
    modifies rt
    ensures ReadOver(k, rt.cells, rt.owned, mean', out, m)
    decreases n, 0, 0
  {
    ghost var src := mean[s];
    assert k.(busy := {}) == k;
    out, mean' := ForceWithin(rt, s, w, k.keep, k, mean, src.rank);
    if out.Step? { StepOfRest(rt.cells, mean', out.ref, src, m); }
  }

  lemma StepOfRest(h: Heap, mean: seq<Mean>, step: Ref, src: Mean, m: Mean)
    requires StepOk(h, mean, step, src) && m.xs == src.xs && src.rank <= m.rank && (m.calm ==> src.calm)
    ensures StepOk(h, mean, step, m)
  {
  }

  method PassOver(rt: Runtime, s: Ref, i: int, w: World, ghost k: Start, ghost mean: seq<Mean>, ghost m: Mean, ghost n: nat)
    returns (over: bool, out: Outcome, rest: Ref, ghost mean': seq<Mean>)
    requires k.w == w && Honest(w) && DropState(k, rt.cells, rt.owned, mean, s, i, m) && i > 0 && m.rank <= n
    modifies rt
    ensures over ==> ReadOver(k, rt.cells, rt.owned, mean', out, m)
    ensures !over ==> DropState(k, rt.cells, rt.owned, mean', rest, i - 1, m)
    decreases n, 0, 0
  {
    ghost var src := mean[s];
    over, rest := true, s;
    assert k.(busy := {}) == k;
    out, mean' := ForceWithin(rt, s, w, k.keep, k, mean, src.rank);
    if out.Step? {
      var ws := rt.cells[out.ref].slots;
      if ws == [] {
        StepOfRest(rt.cells, mean', out.ref, src, Mean([], src.rank, src.calm));
        StepOfRest(rt.cells, mean', out.ref, Mean([], src.rank, src.calm), m);
      } else {
        over, rest := false, ws[1].ref;
        FollowRest(rt, out.ref, rest, k.keep, k, mean');
      }
    }
  }

  // ---------- reading a cell that is deferred ----------

  /** Reads an unevaluated cell. An unshared one is freed before its thunk runs; a shared one is
      marked while it runs and then holds the step. */
  method Run(rt: Runtime, s: Ref, w: World, ghost k: Start, ghost n: nat) returns (out: Outcome, ghost mean': seq<Mean>)
    requires k.w == w && CanRead(k, rt.cells, rt.owned, s) && rt.cells[s].kind.state in {THUNK, RUNNING}
    requires k.mean[s].rank <= n
    modifies rt
    ensures ReadOver(k, rt.cells, rt.owned, mean', out, k.mean[s])
    ensures Stuck(old(rt.cells), s) ==> out == Panic
    ensures s in k.keep ==> Recorded(rt.cells, s, out)
    decreases n, 5
  {
    if rt.cells[s].kind.state == RUNNING {
      Discard(rt, s, k.keep, k, k.mean);
      return Panic, k.mean;
    }
    OwnedLives(rt.cells, rt.owned, s);
    var unique := rt.CheckUnique(s);
    if unique {
      out, mean' := RunUnshared(rt, s, w, k, n);
      assert s !in k.keep;
    } else {
      out, mean' := RunShared(rt, s, w, k, n);
    }
  }

  method RunUnshared(rt: Runtime, s: Ref, w: World, ghost k: Start, ghost n: nat) returns (out: Outcome, ghost mean': seq<Mean>)
    requires k.w == w && CanRead(k, rt.cells, rt.owned, s) && rt.cells[s].kind.state == THUNK && rt.cells[s].rc == 1
    requires k.mean[s].rank <= n
    modifies rt
    ensures ReadOver(k, rt.cells, rt.owned, mean', out, k.mean[s])
    decreases n, 4
  {
    ghost var h, m := rt.cells, k.mean[s];
    assert CellOk(w, h, k.mean, s);
    var thunk := rt.cells[s].slots[0].ref;
    Unthunk(rt, s, thunk, k);
    if k.calm { QuietNow(k, rt.cells, rt.owned, k.mean, m.rank); }
    FrozenNow(k, rt.cells, rt.owned, k.mean);
    assert Frozen(rt.cells, rt.owned, k.frozen);
    ghost var h1, owned1 := rt.cells, rt.owned;
    out, mean' := RunThunk(rt, thunk, w, k.mean, k.frozen, m, n);
    ThunkOver(k, h1, owned1, k.mean, k.frozen, m, rt.cells, rt.owned, mean', out);
    assert k.(busy := {}) == k;
    match out {
      case Step(step) =>
        assert rt.owned == k.keep + multiset{step} + multiset{thunk};
        DiscardBut(rt, thunk, step, k, mean', m);
      case _ => Discard(rt, thunk, k.keep, k, mean');
    }
  }

  method RunShared(rt: Runtime, s: Ref, w: World, ghost k: Start, ghost n: nat) returns (out: Outcome, ghost mean': seq<Mean>)
    requires k.w == w && CanRead(k, rt.cells, rt.owned, s) && rt.cells[s].kind.state == THUNK && k.mean[s].rank <= n
    modifies rt
    ensures ReadOver(k, rt.cells, rt.owned, mean', out, k.mean[s])
    ensures s in k.keep ==> Recorded(rt.cells, s, out)
    decreases n, 4
  {
    ghost var kb := k.(busy := {s});
    assert CellOk(w, rt.cells, k.mean, s);
    var thunk := rt.cells[s].slots[0].ref;
    MarkRunning(rt, s, thunk, k);
    out, mean' := RunMarked(rt, s, thunk, w, kb, n);
    if out.Step? {
      var step := Finish(rt, s, thunk, out.ref, kb, mean');
      out := Step(step);
    } else {
      Abandon(rt, s, kb, mean');
    }
  }

  /** Runs the thunk of a cell that is marked as running. */
  method RunMarked(rt: Runtime, s: Ref, thunk: Ref, w: World, ghost k: Start, ghost n: nat) returns (out: Outcome, ghost mean': seq<Mean>)
    requires k.w == w && Honest(w) && rt.owned == k.keep + multiset{s} && InHands(k, rt.cells, rt.owned, k.mean, s)
    requires rt.cells[s].kind.state == RUNNING && rt.cells[s].slots == [Ptr(thunk), Null]
    requires Fits(w, rt.cells, k.mean, thunk, k.mean[s]) && (k.calm ==> k.mean[s].calm && k.mean[s].rank < k.rank)
    requires k.mean[s].rank <= n
    modifies rt
    ensures InHands(k, rt.cells, rt.owned, mean', s) && rt.cells[s].kind.state == RUNNING
    ensures Ptrs(rt.cells[s].slots) == multiset{thunk} && mean'[s] == k.mean[s]
    ensures rt.owned == Got(k.keep + multiset{s}, out)
    ensures if out.Step? then StepOk(rt.cells, mean', out.ref, mean'[s]) else !k.calm
    decreases n, 3
  {
    ghost var h1 := rt.cells;
    if k.calm { QuietNow(k, h1, rt.owned, k.mean, k.mean[s].rank); }
    FrozenNow(k, h1, rt.owned, k.mean);
    assert Frozen(h1, rt.owned, k.frozen + {s});
    ghost var owned1 := rt.owned;
    out, mean' := RunThunk(rt, thunk, w, k.mean, k.frozen + {s}, k.mean[s], n);
    ThunkOver(k, h1, owned1, k.mean, k.frozen + {s}, k.mean[s], rt.cells, rt.owned, mean', out);
    assert SameFrozen(h1, rt.cells, s);
    assert SameReference(h1, k.mean, rt.cells, mean', s);
    PtrsTwo(Ptr(thunk), Null);
  }

  // ---------- reading a stage of filters ----------

  /** The stages below are merged into the stage being read, and its source is read. */
  method OwnTurn(rt: Runtime, own: Ref, s0: Ref, w: World, ghost k: Start, ghost mean0: seq<Mean>, ghost m: Mean, ghost n: nat)
    returns (t: Turn, ghost mean: seq<Mean>)
    requires k.w == w && Honest(w) && OwnState(k, rt.cells, rt.owned, mean0, own, s0, m) && m.rank <= n
    modifies rt
    ensures t.Done? ==> ReadDone(k, rt.cells, rt.owned, mean, t.step, m)
    ensures t.Again? ==> OwnState(k, rt.cells, rt.owned, mean, own, t.source, m) && mean[t.source].rank < mean0[s0].rank
    ensures t.Stop? ==> !t.out.Step? && ReadLeft(k, rt.cells, rt.owned, mean)
    decreases n, 0, 1
  {
    ghost var h, owned := rt.cells, rt.owned;
    var s;
    ghost var chain;
    s, mean, chain := Absorb(rt, own, s0, k.keep, w, mean0);
    AbsorbFrame(k, h, owned, mean0, rt.cells, rt.owned, mean, chain, s0, s, own);
    assert OwnState(k, rt.cells, rt.owned, mean, own, s, m) && mean[s].rank <= mean0[s0].rank;
    t, mean := OwnRead(rt, own, s, w, k, mean, m, n, h);
  }

  /** Reads the source, which is no stage that could have been merged into this one: in the heap
      `g` at the start of the turn others saw it too, or it was no filter stage. */
  method OwnRead(rt: Runtime, own: Ref, s: Ref, w: World, ghost k: Start, ghost mean0: seq<Mean>, ghost m: Mean, ghost n: nat, ghost g: Heap)
    returns (t: Turn, ghost mean: seq<Mean>)
    requires !Absorbable(g, s)
    requires k.w == w && Honest(w) && OwnState(k, rt.cells, rt.owned, mean0, own, s, m) && m.rank <= n
    modifies rt
    ensures t.Done? ==> ReadDone(k, rt.cells, rt.owned, mean, t.step, m)
    ensures t.Again? ==> OwnState(k, rt.cells, rt.owned, mean, own, t.source, m) && mean[t.source].rank < mean0[s].rank
    ensures t.Stop? ==> !t.out.Step? && ReadLeft(k, rt.cells, rt.owned, mean)
    decreases n, 0, 0
  {
    ghost var h, owned, src := rt.cells, rt.owned, mean0[s];
    ghost var k1 := Inner(k, h, mean0, multiset{own}, {own}, src.rank + 1);
    OwnCanRead(k, h, owned, mean0, own, s, m);
    var out;
    out, mean := Force(rt, s, w, k1, src.rank);
    assert k1.(busy := {}) == k1;
    FrameSteps(k, h, owned, mean0, k1, rt.cells, rt.owned, mean);
    assert SameFrozen(h, rt.cells, own) && SameReference(h, mean0, rt.cells, mean, own);
    if out.Step? {
      t, mean := OwnJudge(rt, own, out.ref, w, k, mean, src, m);
    } else {
      Discard(rt, own, k.keep, k, mean);
      t := Stop(out);
    }
  }

  method SharedTurn(rt: Runtime, c: Ref, s: Ref, w: World, ghost k: Start, ghost mean0: seq<Mean>, ghost m: Mean, ghost n: nat)
    returns (t: Turn, ghost mean: seq<Mean>)
    requires k.w == w && Honest(w) && SharedState(k, rt.cells, rt.owned, mean0, c, s, m) && m.rank <= n
    modifies rt
    ensures t.Done? ==> Held(k, rt.cells, rt.owned, mean, t.step, m)
    ensures t.Again? ==> SharedState(k, rt.cells, rt.owned, mean, c, t.source, m) && mean[t.source].rank < mean0[s].rank
    ensures t.Stop? ==> !t.out.Step? && ReadLeft(k, rt.cells, rt.owned, mean)
    decreases n, 0
  {
    ghost var h, owned, src := rt.cells, rt.owned, mean0[s];
    ghost var k1 := Inner(k, h, mean0, multiset{}, {}, src.rank + 1);
    SharedCanRead(k, h, owned, mean0, c, s, m);
    var out;
    out, mean := Force(rt, s, w, k1, src.rank);
    assert k1.(busy := {}) == k1 && k.keep + multiset{} == k.keep;
    FrameSteps(k, h, owned, mean0, k1, rt.cells, rt.owned, mean);
    assert SameFrozen(h, rt.cells, c);
    if out.Step? {
      t, mean := SharedJudge(rt, c, out.ref, w, k, mean, src, m);
    } else {
      t := Stop(out);
    }
  }

  /** The first step of the source whose element passes every predicate, with the stage itself
      over the rest. */
  method FilterOwn(rt: Runtime, own: Ref, s0: Ref, w: World, ghost k: Start, ghost mean0: seq<Mean>, ghost m: Mean, ghost n: nat)
    returns (out: Outcome, ghost mean: seq<Mean>)
    requires k.w == w && Honest(w) && OwnState(k, rt.cells, rt.owned, mean0, own, s0, m) && m.rank <= n
    modifies rt
    ensures ReadOver(k, rt.cells, rt.owned, mean, out, m)
    decreases n, 1
  {
    var s := s0;
    mean := mean0;
    while true
      invariant OwnState(k, rt.cells, rt.owned, mean, own, s, m)
      decreases mean[s].rank
    {
      var t;
      t, mean := OwnTurn(rt, own, s, w, k, mean, m, n);
      match t {
        case Done(step) => return Step(step), mean;
        case Again(source) => s := source;
        case Stop(left) => return left, mean;
      }
    }
  }

  method FilterShared(rt: Runtime, c: Ref, s0: Ref, w: World, ghost k: Start, ghost mean0: seq<Mean>, ghost m: Mean, ghost n: nat)
    returns (out: Outcome, ghost mean: seq<Mean>)
    requires k.w == w && Honest(w) && SharedState(k, rt.cells, rt.owned, mean0, c, s0, m) && m.rank <= n
    modifies rt
    ensures ReadOver(k, rt.cells, rt.owned, mean, out, m)
    decreases n, 1
  {
    assert k.(busy := {}) == k;
    var s := s0;
    mean := mean0;
    while true
      invariant SharedState(k, rt.cells, rt.owned, mean, c, s, m)
      decreases mean[s].rank
    {
      var t;
      t, mean := SharedTurn(rt, c, s, w, k, mean, m, n);
      match t {
        case Done(step) => return Step(step), mean;
        case Again(source) => s := source;
        case Stop(left) => return left, mean;
      }
    }
  }

  // ---------- reading any cell ----------

  /** The step of any cell, computed if it is not known yet; consumes the reference. */
  method Force(rt: Runtime, s: Ref, w: World, ghost k: Start, ghost n: nat) returns (out: Outcome, ghost mean': seq<Mean>)
    requires k.w == w && CanRead(k, rt.cells, rt.owned, s) && k.mean[s].rank <= n
    modifies rt
    ensures ReadOver(k, rt.cells, rt.owned, mean', out, k.mean[s])
    ensures Stuck(old(rt.cells), s) ==> out == Panic
    ensures IsDone(old(rt.cells), s) ==> Recorded(old(rt.cells), s, out) && out.Step? && OnlyCounts(old(rt.cells), rt.cells)
    ensures s in k.keep ==> Recorded(rt.cells, s, out)
    ensures old(rt.cells)[s].kind.state == FILTER && out.Step? ==>
      FiltersFirst(w, old(rt.cells), k.mean, s, rt.cells, mean', out.ref)
    decreases n, 6
  {
    match rt.cells[s].kind.state {
      case DONE =>
        assert k.(busy := {}) == k;
        var step := Take(rt, s, k, k.mean);
        out, mean' := Step(step), k.mean;
      case FILTER => out, mean' := FilterRun(rt, s, w, k, n);
      case FILTERING => out, mean' := FilterRun(rt, s, w, k, n);
      case _ => out, mean' := Run(rt, s, w, k, n);
    }
  }

  /** A shared stage is marked while it is read, and then holds its step. */
  method FilterMarked(rt: Runtime, c: Ref, s: Ref, w: World, ghost k: Start, ghost n: nat)
    returns (out: Outcome, ghost mean': seq<Mean>)
    requires k.w == w && Honest(w) && WithoutSource(k, rt.cells, rt.owned, c, s) && k.mean[c].rank <= n
    modifies rt
    ensures ReadOver(k, rt.cells, rt.owned, mean', out, k.mean[c])
    ensures c in k.keep ==> Recorded(rt.cells, c, out)
    decreases n, 2, 0
  {
    ghost var k1 := Mark(rt, c, s, k);
    ghost var h1, owned1 := rt.cells, rt.owned;
    out, mean' := FilterShared(rt, c, s, w, k1, k.mean, k.mean[c], n);
    assert k1.(busy := {}) == k1;
    FrameSteps(k, h1, owned1, k.mean, k1, rt.cells, rt.owned, mean');
    assert SameFrozen(h1, rt.cells, c) && SameReference(h1, k.mean, rt.cells, mean', c);
    out := Unmark(rt, c, out, k, mean');
  }

  /** The step of a stage: empty if and only if no element of the source passes, else the first
      that passes with a cell for those that pass after it. A stage that is being read, or whose
      read was left by an exit, cannot be read. */
  method FilterRun(rt: Runtime, c: Ref, w: World, ghost k: Start, ghost n: nat) returns (out: Outcome, ghost mean': seq<Mean>)
    requires k.w == w && CanRead(k, rt.cells, rt.owned, c) && k.mean[c].rank <= n
    requires rt.cells[c].kind.state in {FILTER, FILTERING}
    modifies rt
    ensures ReadOver(k, rt.cells, rt.owned, mean', out, k.mean[c])
    ensures Stuck(old(rt.cells), c) ==> out == Panic
    ensures c in k.keep ==> Recorded(rt.cells, c, out)
    ensures out.Step? ==> FiltersFirst(w, old(rt.cells), k.mean, c, rt.cells, mean', out.ref)
    decreases n, 2, 1
  {
    ghost var h := rt.cells;
    assert CellOk(w, h, k.mean, c);
    if rt.cells[c].kind.state == FILTERING || rt.cells[c].slots[0] == Null {
      Discard(rt, c, k.keep, k, k.mean);
      return Panic, k.mean;
    }
    var s := rt.cells[c].slots[0].ref;
    DetachSource(rt, c, s, k);
    OwnedLives(rt.cells, rt.owned, c);
    var unique := rt.CheckUnique(c);
    if unique {
      assert c !in k.keep;
      out, mean' := FilterOwn(rt, c, s, w, k.(busy := {c}), k.mean, k.mean[c], n);
    } else {
      out, mean' := FilterMarked(rt, c, s, w, k.(busy := {c}), n);
    }
    if out.Step? { StepOfStage(w, h, k.mean, c, rt.cells, mean', out.ref); }
  }
}
