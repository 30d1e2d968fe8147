/** Merging a chain of filter stages into the stage that reads it. The chain is walked down
    with its links reversed and back up along them. */
module SeqAbsorb {
  import opened RcHeap
  import opened SeqPreds
  import opened SeqWorld
  import opened SeqMeaning

  /** The cell at `r` is a filter stage with a source, and the frame alone sees it. */
  predicate Absorbable(h: Heap, r: Ref) {
    IsSeq(h, r) && h[r].kind.state == FILTER && h[r].slots[0] != Null && h[r].rc == 1
  }

  ghost function Next(chain: seq<Ref>, i: nat, source: Ref): Ref
    requires i < |chain|
  {
    if i + 1 < |chain| then chain[i + 1] else source
  }

  /** The `i`-th stage: absorbable, reading the next one, with a predicate list. */
  ghost predicate Stage(h: Heap, chain: seq<Ref>, i: nat, source: Ref) {
    && i < |chain| && Absorbable(h, chain[i])
    && h[chain[i]].slots[0] == Ptr(Next(chain, i, source))
    && h[chain[i]].slots[1].Ptr? && IsPreds(h, h[chain[i]].slots[1].ref)
  }

  /** In `h`, `chain` is the run of absorbable stages from `s` down, and `source` is what the
      lowest of them reads. */
  ghost predicate Chain(h: Heap, chain: seq<Ref>, s: Ref, source: Ref) {
    && s == (if chain == [] then source else chain[0])
    && (forall i :: 0 <= i < |chain| ==> Stage(h, chain, i, source))
    && (forall i, j :: 0 <= i < j < |chain| ==> chain[i] != chain[j])
  }

  lemma ChainCells(h: Heap, chain: seq<Ref>, s: Ref, source: Ref)
    requires Chain(h, chain, s, source)
    ensures forall c <- chain :: Absorbable(h, c)
  {
    forall c <- chain ensures Absorbable(h, c) {
      var i :| 0 <= i < |chain| && chain[i] == c;
      assert Stage(h, chain, i, source);
    }
  }

  function Above(chain: seq<Ref>, k: nat): Word
    requires k <= |chain|
  {
    if k == 0 then Null else Ptr(chain[k - 1])
  }

  /** A stage of the chain with its link turned round. */
  function Turned(h: Heap, chain: seq<Ref>, i: nat): Cell
    requires i < |chain| && Live(h, chain[i]) && |h[chain[i]].slots| == 2
  {
    Cell(1, SeqCell(FILTER), [Above(chain, i), h[chain[i]].slots[1]])
  }

  ghost predicate IsTurned(g: Heap, h: Heap, chain: seq<Ref>, i: nat) {
    i < |chain| && IsSeq(g, chain[i]) && Live(h, chain[i]) && h[chain[i]] == Turned(g, chain, i)
  }

  /** The walk down: the stages seen so far have their links reversed, nothing else changed. */
  ghost predicate WalkedDown(g: Heap, h: Heap, chain: seq<Ref>) {
    && |g| == |h|
    && (forall i :: 0 <= i < |chain| ==> IsTurned(g, h, chain, i))
    && (forall r: Ref :: r < |g| && r !in chain ==> h[r] == g[r])
  }

  ghost predicate Ranked(mean: seq<Mean>, chain: seq<Ref>, s: Ref) {
    && s < |mean|
    && (forall i :: 0 <= i < |chain| ==> chain[i] < |mean| && mean[s].rank < mean[chain[i]].rank)
    && (forall i, j :: 0 <= i < j < |chain| ==> mean[chain[j]].rank < mean[chain[i]].rank)
  }

  /** None of the references the caller keeps gained an owner. */
  ghost predicate Kept(g: Heap, h: Heap, keep: multiset<Ref>) {
    forall x: Ref :: x in keep ==> NoGain(g, h, x)
  }

  lemma TurnKeeps(h: Heap, s: Ref, next: Ref, below: Word, pred: Word, x: Ref)
    requires Live(h, s) && h[s].slots == [Ptr(next), pred] && below != Ptr(x)
    ensures Out(h[s := Cell(1, SeqCell(FILTER), [below, pred])], x) <= Out(h, x)
  {
    OutUpdate(h, s, Cell(1, SeqCell(FILTER), [below, pred]), x);
    PtrsTwo(Ptr(next), pred);
    PtrsTwo(below, pred);
  }

  /** Where the walk is: at `s`, below `chain`. */
  ghost predicate Walking(w: World, g: Heap, h: Heap, mean: seq<Mean>, chain: seq<Ref>, s0: Ref, s: Ref, keep: multiset<Ref>) {
    && Consistent(w, g, mean)
    && Chain(g, chain, s0, s) && WalkedDown(g, h, chain) && Ranked(mean, chain, s)
    && IsSeq(g, s) && s !in chain && forall c <- chain :: c !in keep
  }

  lemma LongerChain(g: Heap, chain: seq<Ref>, s0: Ref, s: Ref)
    requires Chain(g, chain, s0, s) && Absorbable(g, s) && s !in chain && g[s].slots[0].Ptr?
    requires g[s].slots[1].Ptr? && IsPreds(g, g[s].slots[1].ref)
    ensures Chain(g, chain + [s], s0, g[s].slots[0].ref)
  {
    var next, longer := g[s].slots[0].ref, chain + [s];
    forall i | 0 <= i < |longer| ensures Stage(g, longer, i, next) {
      if i < |chain| { assert Stage(g, chain, i, s); }
    }
  }

  lemma LongerWalk(g: Heap, h: Heap, chain: seq<Ref>, s: Ref)
    requires WalkedDown(g, h, chain) && Absorbable(g, s) && s !in chain
    ensures WalkedDown(g, h[s := Turned(g, chain + [s], |chain|)], chain + [s])
  {
    var longer := chain + [s];
    var h' := h[s := Turned(g, longer, |chain|)];
    forall i | 0 <= i < |longer| ensures IsTurned(g, h', longer, i) {
      if i < |chain| { assert IsTurned(g, h, chain, i); }
    }
  }

  lemma LongerRanks(mean: seq<Mean>, chain: seq<Ref>, s: Ref, next: Ref)
    requires Ranked(mean, chain, s) && next < |mean| && mean[next].rank < mean[s].rank
    ensures Ranked(mean, chain + [s], next)
  {
    var longer := chain + [s];
    forall i | 0 <= i < |longer| ensures longer[i] < |mean| && mean[next].rank < mean[longer[i]].rank {
      if i < |chain| { assert mean[s].rank < mean[chain[i]].rank; }
    }
    forall i, j | 0 <= i < j < |longer| ensures mean[longer[j]].rank < mean[longer[i]].rank {
      if j == |chain| { assert mean[s].rank < mean[chain[i]].rank; }
    }
  }

  lemma Descend(w: World, g: Heap, h: Heap, mean: seq<Mean>, chain: seq<Ref>, s0: Ref, s: Ref, keep: multiset<Ref>)
    requires Walking(w, g, h, mean, chain, s0, s, keep) && Absorbable(h, s) && s !in keep
    ensures h[s] == g[s] && h[s].slots[0].Ptr? && h[s].slots[1].Ptr?
    ensures IsPreds(g, h[s].slots[1].ref) && h[h[s].slots[1].ref] == g[h[s].slots[1].ref]
    ensures Walking(w, g, h[s := Turned(g, chain + [s], |chain|)], mean, chain + [s], s0, h[s].slots[0].ref, keep)
    ensures mean[h[s].slots[0].ref].rank < mean[s].rank
  {
    assert CellOk(w, g, mean, s);
    ChainCells(g, chain, s0, s);
    var next := h[s].slots[0].ref;
    LongerChain(g, chain, s0, s);
    LongerWalk(g, h, chain, s);
    LongerRanks(mean, chain, s, next);
  }

  method WalkDown(rt: Runtime, s0: Ref, ghost keep: multiset<Ref>, ghost w: World, ghost mean: seq<Mean>)
    returns (s: Ref, below: Word, n: nat, ghost chain: seq<Ref>)
    requires rt.Valid() && rt.owned == keep + multiset{s0} && Consistent(w, rt.cells, mean) && IsSeq(rt.cells, s0)
    modifies rt
    ensures rt.Valid() && rt.owned == keep + multiset{s} + PtrOf(below) && below == Above(chain, |chain|)
    ensures Walking(w, old(rt.cells), rt.cells, mean, chain, s0, s, keep) && Kept(old(rt.cells), rt.cells, keep)
    ensures !Absorbable(rt.cells, s)
  {
    ghost var g := rt.cells;
    s, below, n, chain := s0, Null, 0, [];
    assert Walking(w, g, rt.cells, mean, chain, s0, s, keep);
    while rt.cells[s].kind.state == FILTER && rt.cells[s].slots[0] != Null && rt.cells[s].rc == 1
      invariant rt.Valid() && rt.owned == keep + multiset{s} + PtrOf(below) && below == Above(chain, |chain|)
      invariant Walking(w, g, rt.cells, mean, chain, s0, s, keep)
      invariant IsSeq(rt.cells, s) && Kept(g, rt.cells, keep)
      decreases mean[s].rank
    {
      var top := s;
      s, n, chain := StepDown(rt, s, below, n, keep, w, g, mean, chain, s0);
      below := Ptr(top);
    }
  }

  method StepDown(rt: Runtime, s: Ref, below: Word, n: nat, ghost keep: multiset<Ref>, ghost w: World, ghost g: Heap,
                  ghost mean: seq<Mean>, ghost chain: seq<Ref>, ghost s0: Ref)
    returns (next: Ref, n': nat, ghost longer: seq<Ref>)
    requires rt.Valid() && rt.owned == keep + multiset{s} + PtrOf(below) && below == Above(chain, |chain|)
    requires Walking(w, g, rt.cells, mean, chain, s0, s, keep) && Kept(g, rt.cells, keep) && Absorbable(rt.cells, s)
    modifies rt
    ensures rt.Valid() && rt.owned == keep + multiset{next} + PtrOf(Ptr(s)) && longer == chain + [s]
    ensures Walking(w, g, rt.cells, mean, longer, s0, next, keep) && Kept(g, rt.cells, keep)
    ensures IsSeq(rt.cells, next) && mean[next].rank < mean[s].rank
  {
    OwnedLives(rt.cells, rt.owned, s);
    Descend(w, g, rt.cells, mean, chain, s0, s, keep);
    next := rt.cells[s].slots[0].ref;
    n' := n + |Items(rt.cells, rt.cells[s].slots[1].ref)|;
    longer := chain + [s];
    ghost var h := rt.cells;
    TurnLink(rt, s, below, next, keep);
    forall x: Ref | x in keep ensures NoGain(g, rt.cells, x) {
      assert NoGain(g, h, x);
      TurnKeeps(h, s, next, below, h[s].slots[1], x);
    }
  }

  /** One step down: the stage's link goes to the one above, and the frame takes the old link. */
  method TurnLink(rt: Runtime, s: Ref, below: Word, next: Ref, ghost keep: multiset<Ref>)
    requires rt.Valid() && rt.owned == keep + multiset{s} + PtrOf(below)
    requires Absorbable(rt.cells, s) && rt.cells[s].slots[0] == Ptr(next)
    modifies rt
    ensures rt.Valid() && rt.owned == keep + multiset{next} + PtrOf(Ptr(s))
    ensures rt.cells == old(rt.cells)[s := Cell(1, SeqCell(FILTER), [below, old(rt.cells)[s].slots[1]])]
  {
    var pred := rt.cells[s].slots[1];
    PtrsTwo(Ptr(next), pred);
    PtrsTwo(below, pred);
    assert rt.cells[s].slots == [Ptr(next), pred];
    rt.Write(s, SeqCell(FILTER), [below, pred], keep + multiset{next} + multiset{s});
  }

  // ---------- the way back up ----------

  /** The closures of the stages from `k` down, the lowest stage first. */
  ghost function LowItems(g: Heap, chain: seq<Ref>, source: Ref, k: nat): seq<Word>
    requires k <= |chain|
    requires forall i :: 0 <= i < |chain| ==> Stage(g, chain, i, source)
    decreases |chain| - k
  {
    if k == |chain| then [] else
      assert Stage(g, chain, k, source);
      LowItems(g, chain, source, k + 1) + Items(g, g[chain[k]].slots[1].ref)
  }

  /** The list collected so far, if the climb may write to it. */
  ghost function Grown(h: Heap, preds: Word): set<Ref> {
    if preds.Ptr? && GrowsInPlace(h, preds.ref) then {preds.ref} else {}
  }

  ghost function InChain(chain: seq<Ref>): set<Ref> {
    set c <- chain
  }

  ghost predicate GrewFromArray(g: Heap, h: Heap, preds: Word) {
    forall r <- Grown(h, preds) :: Live(g, r) ==> g[r].kind.ArrayCell?
  }

  ghost predicate OnlyArraysAdded(g: Heap, h: Heap) {
    forall r: Ref :: |g| <= r && Live(h, r) ==> h[r].kind.ArrayCell?
  }

  /** The stages from `k` down are freed and their closures are in `preds`; those above still
      have their links reversed. */
  ghost predicate Climbing(g: Heap, h: Heap, chain: seq<Ref>, s0: Ref, s: Ref, k: nat, preds: Word) {
    && k <= |chain| && Chain(g, chain, s0, s)
    && (forall i :: 0 <= i < k ==> IsTurned(g, h, chain, i))
    && (forall i :: k <= i < |chain| ==> !Live(h, chain[i]))
    && Untouched(g, h, InChain(chain) + Grown(h, preds)) && GrewFromArray(g, h, preds)
    && OnlyArraysAdded(g, h)
    && (if k == |chain| then preds == Null else
          && preds.Ptr? && IsPreds(h, preds.ref) && preds.ref !in chain
          && Items(h, preds.ref) == LowItems(g, chain, s, k))
  }

  /** A reversed stage keeps its single owner while others are freed and closures gain owners. */
  lemma {:induction false} StaysTurned(g: Heap, h: Heap, owned: multiset<Ref>, h': Heap, owned': multiset<Ref>,
                                       chain: seq<Ref>, k: nat, i: nat, out: Ref)
    requires Counted(h, owned) && Counted(h', owned') && Untouched(h, h', {out}) && OnlyClosuresGain(h, h')
    requires i < k <= |chain| && out !in chain && chain[k - 1] in owned'
    requires forall j :: 0 <= j < k ==> IsTurned(g, h, chain, j)
    requires forall j :: 0 <= j < k ==> owned'[chain[j]] <= owned[chain[j]]
    ensures IsTurned(g, h', chain, i)
    decreases k - i
  {
    var x := chain[i];
    assert IsTurned(g, h, chain, i);
    if i < k - 1 {
      StaysTurned(g, h, owned, h', owned', chain, k, i + 1, out);
      assert h'[chain[i + 1]].slots[0] == Ptr(x);
      SlotOwns(h', chain[i + 1], 0);
    }
    OwnedLives(h', owned', x);
    OwnedLives(h, owned, x);
    assert NoGain(h, h', x);
  }

  /** Takes both links of a stage and gives the emptied stage up: it is freed. */
  method Detach(rt: Runtime, x: Ref, up: Word, p: Ref, ghost keep: multiset<Ref>)
    requires rt.Valid() && rt.owned == keep + multiset{x}
    requires Live(rt.cells, x) && rt.cells[x] == Cell(1, SeqCell(FILTER), [up, Ptr(p)])
    modifies rt
    ensures rt.Valid() && rt.owned == keep + PtrOf(up) + multiset{p}
    ensures rt.cells == old(rt.cells)[x := Free]
  {
    PtrsTwo(up, Ptr(p));
    PtrsTwo(Null, Null);
    ghost var held := keep + PtrOf(up) + multiset{p};
    rt.Write(x, SeqCell(FILTER), [Null, Null], held + multiset{x});
    NoRefs();
    rt.Drop(x, held);
  }

  /** The state in the middle of a step up: stage `k` is gone, its closures `p` are in hand. */
  ghost predicate InHand(g: Heap, h: Heap, chain: seq<Ref>, s0: Ref, s: Ref, k: nat, preds: Word, p: Ref) {
    && k < |chain| && Chain(g, chain, s0, s)
    && (forall i :: 0 <= i < k ==> IsTurned(g, h, chain, i))
    && (forall i :: k <= i < |chain| ==> !Live(h, chain[i]))
    && Untouched(g, h, InChain(chain) + Grown(h, preds)) && GrewFromArray(g, h, preds)
    && OnlyArraysAdded(g, h)
    && (if k + 1 == |chain| then preds == Null else
          && preds.Ptr? && IsPreds(h, preds.ref) && preds.ref !in chain
          && Items(h, preds.ref) == LowItems(g, chain, s, k + 1))
    && Stage(g, chain, k, s) && IsPreds(h, p) && p !in chain && Items(h, p) == Items(g, g[chain[k]].slots[1].ref)
    && Live(g, p) && Alike(g[p], h[p])
  }

  lemma NoRefs()
    ensures Ptrs([Null, Null]) == multiset{}
  {
    PtrsTwo(Null, Null);
  }

  lemma FreeKeepsPreds(h: Heap, x: Ref, p: Ref)
    requires IsPreds(h, p) && IsSeq(h, x)
    ensures IsPreds(h[x := Free], p) && Items(h[x := Free], p) == Items(h, p) && h[x := Free][p] == h[p]
  {
  }

  /** The list in hand is not the one the climb writes to. */
  lemma NotGrown(g: Heap, h: Heap, owned: multiset<Ref>, chain: seq<Ref>, preds: Word, p: Ref)
    requires Counted(h, owned) && PtrOf(preds) + multiset{p} <= owned
    requires Untouched(g, h, InChain(chain) + Grown(h, preds)) && GrewFromArray(g, h, preds)
    requires forall c <- chain :: IsSeq(g, c)
    requires IsPreds(g, p)
    ensures IsPreds(h, p) && Items(h, p) == Items(g, p) && Alike(g[p], h[p])
  {
    OwnedLives(h, owned, p);
    assert p !in Grown(h, preds) by {
      if preds == Ptr(p) { assert owned[p] >= 2; }
    }
    SamePreds(g, h, owned, InChain(chain) + Grown(h, preds), p);
  }

  lemma Detached(g: Heap, h: Heap, h': Heap, owned': multiset<Ref>, chain: seq<Ref>, s0: Ref, s: Ref, k: nat, preds: Word)
    requires Climbing(g, h, chain, s0, s, k + 1, preds) && Live(h, chain[k])
    requires h' == h[chain[k] := Free] && Counted(h', owned')
    requires Stage(g, chain, k, s) && PtrOf(preds) + multiset{g[chain[k]].slots[1].ref} <= owned'
    ensures InHand(g, h', chain, s0, s, k, preds, g[chain[k]].slots[1].ref)
  {
    assert IsTurned(g, h, chain, k) && Stage(g, chain, k, s);
    if preds.Ptr? { FreeKeepsPreds(h, chain[k], preds.ref); }
    forall i | 0 <= i < k ensures IsTurned(g, h', chain, i) { assert IsTurned(g, h, chain, i); }
    ChainCells(g, chain, s0, s);
    assert Grown(h', preds) == Grown(h, preds);
    NotGrown(g, h', owned', chain, preds, g[chain[k]].slots[1].ref);
  }

  lemma FirstInHand(g: Heap, h: Heap, chain: seq<Ref>, s0: Ref, s: Ref, k: nat, p: Ref)
    requires InHand(g, h, chain, s0, s, k, Null, p)
    ensures Climbing(g, h, chain, s0, s, k, Ptr(p))
  {
  }

  /** The joined list is in hand after a climb of one more stage. */
  ghost predicate Joined(h: Heap, h': Heap, preds: Ref, p: Ref, out: Ref) {
    && IsPreds(h, preds) && IsPreds(h, p) && out == (if GrowsInPlace(h, preds) then preds else |h|)
    && IsPreds(h', out) && GrowsInPlace(h', out) && Items(h', out) == Items(h, preds) + Items(h, p)
    && Untouched(h, h', {out}) && OnlyClosuresGain(h, h') && |h'| == |h| + if GrowsInPlace(h, preds) then 0 else 1
  }

  lemma CollectedTurned(g: Heap, h: Heap, h': Heap, keep: multiset<Ref>,
                        chain: seq<Ref>, s0: Ref, s: Ref, k: nat, preds: Ref, p: Ref, out: Ref, i: nat)
    requires InHand(g, h, chain, s0, s, k, Ptr(preds), p) && Joined(h, h', preds, p, out)
    requires Counted(h, keep + multiset{preds, p}) && Counted(h', keep + multiset{out})
    requires i < k && chain[k - 1] in keep && out !in chain
    ensures IsTurned(g, h', chain, i)
  {
    forall j | 0 <= j < k ensures (keep + multiset{out})[chain[j]] <= (keep + multiset{preds, p})[chain[j]] {
      assert chain[j] != out;
    }
    StaysTurned(g, h, keep + multiset{preds, p}, h', keep + multiset{out}, chain, k, i, out);
  }

  lemma CollectedFreed(g: Heap, h: Heap, h': Heap, chain: seq<Ref>, s0: Ref, s: Ref, k: nat, preds: Ref, p: Ref, out: Ref)
    requires InHand(g, h, chain, s0, s, k, Ptr(preds), p) && Joined(h, h', preds, p, out)
    ensures out !in chain && forall i :: k <= i < |chain| ==> !Live(h', chain[i])
  {
    ChainCells(g, chain, s0, s);
    assert out !in chain;
    forall i | k <= i < |chain| ensures !Live(h', chain[i]) { assert Absorbable(g, chain[i]) && chain[i] != out; }
  }

  lemma Collected(g: Heap, h: Heap, h': Heap, keep: multiset<Ref>,
                  chain: seq<Ref>, s0: Ref, s: Ref, k: nat, preds: Ref, p: Ref, out: Ref)
    requires InHand(g, h, chain, s0, s, k, Ptr(preds), p) && Joined(h, h', preds, p, out)
    requires Counted(h, keep + multiset{preds, p}) && Counted(h', keep + multiset{out})
    requires k > 0 ==> chain[k - 1] in keep
    ensures Climbing(g, h', chain, s0, s, k, Ptr(out))
  {
    CollectedFreed(g, h, h', chain, s0, s, k, preds, p, out);
    forall i | 0 <= i < k ensures IsTurned(g, h', chain, i) {
      CollectedTurned(g, h, h', keep, chain, s0, s, k, preds, p, out, i);
    }
  }

  lemma KeptThroughFree(g: Heap, h: Heap, x: Ref, keep: multiset<Ref>)
    requires Kept(g, h, keep) && Live(h, x)
    ensures Kept(g, h[x := Free], keep)
  {
    forall r: Ref | r in keep ensures NoGain(g, h[x := Free], r) {
      assert NoGain(g, h, r);
      OutUpdate(h, x, Free, r);
    }
  }

  lemma KeptThroughJoin(g: Heap, h: Heap, h': Heap, keep: multiset<Ref>, chain: seq<Ref>, preds: Word)
    requires Kept(g, h, keep) && OnlyClosuresGain(h, h')
    requires Untouched(g, h, InChain(chain) + Grown(h, preds)) && forall c <- chain :: c !in keep
    ensures Kept(g, h', keep)
  {
    forall r: Ref | r in keep ensures NoGain(g, h', r) {
      assert NoGain(g, h, r) && NoGain(h, h', r);
      if r < |g| && !IsClosure(g, r) {
        assert !IsClosure(h, r) by {
          if Live(h, r) && r !in Grown(h, preds) { assert r !in InChain(chain) && Alike(g[r], h[r]); }
        }
      }
    }
  }

  /** The way back up: each stage on the way is freed, and its closures go behind those of
      the stages below it. */
  method Climb(rt: Runtime, above: Word, n: nat, ghost keep: multiset<Ref>, ghost g: Heap, ghost chain: seq<Ref>, ghost s0: Ref, ghost s: Ref,
               ghost mine: multiset<Ref>)
    returns (preds: Word)
    requires rt.Valid() && rt.owned == keep + PtrOf(above) && above == Above(chain, |chain|)
    requires Climbing(g, rt.cells, chain, s0, s, |chain|, Null) && Kept(g, rt.cells, mine)
    requires mine <= keep && forall c <- chain :: c !in keep
    modifies rt
    ensures rt.Valid() && rt.owned == keep + PtrOf(preds)
    ensures Climbing(g, rt.cells, chain, s0, s, 0, preds) && Kept(g, rt.cells, mine)
  {
    var below := above;
    ghost var k := |chain|;
    preds := Null;
    assert rt.owned == keep + PtrOf(below) + PtrOf(preds);
    while below != Null
      invariant 0 <= k <= |chain| && below == Above(chain, k)
      invariant rt.Valid() && rt.owned == keep + PtrOf(below) + PtrOf(preds)
      invariant Climbing(g, rt.cells, chain, s0, s, k, preds) && Kept(g, rt.cells, mine)
      decreases k
    {
      k := k - 1;
      below, preds := ClimbStep(rt, below.ref, preds, n, keep, g, chain, s0, s, k, mine);
    }
    assert keep + PtrOf(below) + PtrOf(preds) == keep + PtrOf(preds);
  }

  method ClimbStep(rt: Runtime, x: Ref, preds: Word, n: nat, ghost keep: multiset<Ref>, ghost g: Heap,
                   ghost chain: seq<Ref>, ghost s0: Ref, ghost s: Ref, ghost k: nat, ghost mine: multiset<Ref>)
    returns (up: Word, preds': Word)
    requires k < |chain| && x == chain[k]
    requires rt.Valid() && rt.owned == keep + PtrOf(Ptr(x)) + PtrOf(preds)
    requires Climbing(g, rt.cells, chain, s0, s, k + 1, preds) && Kept(g, rt.cells, mine)
    requires mine <= keep && forall c <- chain :: c !in keep
    modifies rt
    ensures up == Above(chain, k)
    ensures rt.Valid() && rt.owned == keep + PtrOf(up) + PtrOf(preds')
    ensures Climbing(g, rt.cells, chain, s0, s, k, preds') && Kept(g, rt.cells, mine)
  {
    ghost var h := rt.cells;
    assert IsTurned(g, h, chain, k) && Stage(g, chain, k, s);
    up := rt.cells[x].slots[0];
    var p := rt.cells[x].slots[1].ref;
    assert rt.owned == keep + PtrOf(preds) + multiset{x};
    Detach(rt, x, up, p, keep + PtrOf(preds));
    Detached(g, h, rt.cells, rt.owned, chain, s0, s, k, preds);
    KeptThroughFree(g, h, x, mine);
    if preds == Null {
      FirstInHand(g, rt.cells, chain, s0, s, k, p);
      preds' := Ptr(p);
    } else {
      preds' := JoinStep(rt, preds.ref, p, n, up, keep, g, chain, s0, s, k, mine);
    }
  }

  method JoinStep(rt: Runtime, preds: Ref, p: Ref, n: nat, up: Word, ghost keep: multiset<Ref>, ghost g: Heap,
                  ghost chain: seq<Ref>, ghost s0: Ref, ghost s: Ref, ghost k: nat, ghost mine: multiset<Ref>)
    returns (preds': Word)
    requires k < |chain| && up == Above(chain, k) && rt.Valid() && rt.owned == keep + PtrOf(Ptr(preds)) + PtrOf(up) + multiset{p}
    requires InHand(g, rt.cells, chain, s0, s, k, Ptr(preds), p) && Kept(g, rt.cells, mine)
    requires mine <= keep && forall c <- chain :: c !in keep
    modifies rt
    ensures rt.Valid() && rt.owned == keep + PtrOf(up) + PtrOf(preds')
    ensures Climbing(g, rt.cells, chain, s0, s, k, preds') && Kept(g, rt.cells, mine)
  {
    ghost var h1, others := rt.cells, keep + PtrOf(up);
    assert rt.owned == others + multiset{preds, p};
    var out := Join(rt, preds, p, n, others);
    KeptThroughJoin(g, h1, rt.cells, mine, chain, Ptr(preds));
    Collected(g, h1, rt.cells, others, chain, s0, s, k, preds, p, out);
    preds' := Ptr(out);
  }

  // ---------- the whole of it ----------

  /** A stage that is being read: the frame alone sees it, and its source has left it. */
  ghost predicate BeingRead(h: Heap, own: Ref) {
    IsSeq(h, own) && h[own] == Cell(1, SeqCell(FILTER), [Null, h[own].slots[1]])
    && h[own].slots[1].Ptr? && IsPreds(h, h[own].slots[1].ref)
  }

  lemma StartClimb(w: World, g: Heap, h: Heap, mean: seq<Mean>, chain: seq<Ref>, s0: Ref, s: Ref, keep: multiset<Ref>)
    requires Walking(w, g, h, mean, chain, s0, s, keep)
    ensures Climbing(g, h, chain, s0, s, |chain|, Null)
  {
    forall r: Ref | r < |g| && r !in InChain(chain) && Live(h, r) ensures Live(g, r) && Alike(g[r], h[r]) {
      assert h[r] == g[r];
    }
  }

  /** A stage the frame holds alone is as it was, count included. */
  lemma StaysBeingRead(g: Heap, gOwned: multiset<Ref>, h: Heap, owned: multiset<Ref>, own: Ref)
    requires Counted(g, gOwned) && Counted(h, owned) && BeingRead(g, own) && own in gOwned
    requires owned[own] == gOwned[own] && NoGain(g, h, own)
    requires Live(h, own) ==> Alike(g[own], h[own])
    ensures Live(h, own) && h[own] == g[own] && owned[own] == 1 && Out(h, own) == 0
  {
    OwnedLives(g, gOwned, own);
    OwnedLives(h, owned, own);
  }

  /** The list of the stage being read is not written to while the chain is merged. */
  lemma OwnPreds(g: Heap, h: Heap, owned: multiset<Ref>, chain: seq<Ref>, preds: Word, own: Ref)
    requires Counted(h, owned) && PtrOf(preds) <= owned && BeingRead(g, own) && Live(h, own) && h[own] == g[own]
    requires Untouched(g, h, InChain(chain) + Grown(h, preds)) && GrewFromArray(g, h, preds)
    requires forall c <- chain :: IsSeq(g, c)
    ensures var p := g[own].slots[1].ref; IsPreds(h, p) && Items(h, p) == Items(g, p)
  {
    var p := g[own].slots[1].ref;
    SlotOwns(h, own, 1);
    OwnedLives(h, owned, p);
    SamePreds(g, h, owned, InChain(chain) + Grown(h, preds), p);
  }

  lemma SetGains(h: Heap, own: Ref, now: Word, x: Ref)
    requires Live(h, own) && |h[own].slots| == 2 && h[own].slots[0] == Null && now != Ptr(x)
    ensures Out(h[own := Cell(h[own].rc, SeqCell(FILTER), [Null, now])], x) <= Out(h, x)
  {
    OutUpdate(h, own, Cell(h[own].rc, SeqCell(FILTER), [Null, now]), x);
    PtrsTwo(Null, now);
  }

  /** No sequence cell gained an owner. */
  ghost predicate SeqGain(g: Heap, h: Heap, x: Ref) {
    IsSeq(g, x) ==> Out(h, x) <= Out(g, x)
  }

  ghost predicate NoSeqGains(g: Heap, h: Heap) {
    forall x: Ref :: SeqGain(g, h, x)
  }

  lemma PrependGains(h: Heap, h1: Heap, h2: Heap, h3: Heap, own: Ref, out: Ref)
    requires IsSeq(h, own) && h[own].slots[0] == Null && IsSeq(h2, own) && h2[own].slots[0] == Null
    requires h1 == h[own := Cell(h[own].rc, SeqCell(FILTER), [Null, Null])]
    requires OnlyClosuresGain(h1, h2) && !IsSeq(h, out)
    requires h3 == h2[own := Cell(h2[own].rc, SeqCell(FILTER), [Null, Ptr(out)])]
    ensures NoSeqGains(h, h3)
  {
    forall x: Ref ensures SeqGain(h, h3, x) {
      if IsSeq(h, x) {
        SetGains(h, own, Null, x);
        assert NoGain(h1, h2, x);
        SetGains(h2, own, Ptr(out), x);
      }
    }
  }

  lemma PrependWrites(h: Heap, h1: Heap, h2: Heap, h3: Heap, own: Ref, out: Ref)
    requires own < |h| && |h1| == |h| && own < |h2| && |h3| == |h2|
    requires forall r: Ref :: r < |h| && r != own ==> h1[r] == h[r]
    requires forall r: Ref :: r < |h2| && r != own ==> h3[r] == h2[r]
    requires Untouched(h1, h2, {out})
    ensures Untouched(h, h3, {own, out})
  {
  }

  /** Puts the closures of `preds` ahead of the stage's own. */
  method Prepend(rt: Runtime, own: Ref, preds: Ref, n: nat, ghost keep: multiset<Ref>) returns (out: Ref)
    requires rt.Valid() && rt.owned == keep + multiset{own} + multiset{preds}
    requires BeingRead(rt.cells, own) && IsPreds(rt.cells, preds)
    modifies rt
    ensures rt.Valid() && rt.owned == keep + multiset{own}
    ensures Live(rt.cells, own) && rt.cells[own] == Cell(1, SeqCell(FILTER), [Null, Ptr(out)])
    ensures IsPreds(rt.cells, out) && GrowsInPlace(rt.cells, out)
    ensures out == if GrowsInPlace(old(rt.cells), preds) then preds else |old(rt.cells)|
    ensures |rt.cells| == |old(rt.cells)| + if GrowsInPlace(old(rt.cells), preds) then 0 else 1
    ensures Items(rt.cells, out) == Items(old(rt.cells), preds) + Items(old(rt.cells), old(rt.cells)[own].slots[1].ref)
    ensures Untouched(old(rt.cells), rt.cells, {own, out})
    ensures NoSeqGains(old(rt.cells), rt.cells)
  {
    ghost var h := rt.cells;
    var p := rt.cells[own].slots[1].ref;
    SetPreds(rt, own, Null, keep + multiset{preds}, multiset{}, multiset{p});
    ghost var h1 := rt.cells;
    KeepsPreds(h, own, h1[own], p);
    KeepsPreds(h, own, h1[own], preds);
    out := JoinAside(rt, own, preds, p, n, keep);
    ghost var h2 := rt.cells;
    SetPreds(rt, own, Ptr(out), keep, multiset{out}, multiset{});
    KeepsPreds(h2, own, rt.cells[own], out);
    PrependGains(h, h1, h2, rt.cells, own, out);
    PrependWrites(h, h1, h2, rt.cells, own, out);
  }

  /** Joins two lists while the stage waits empty-handed. */
  method JoinAside(rt: Runtime, own: Ref, preds: Ref, p: Ref, n: nat, ghost keep: multiset<Ref>) returns (out: Ref)
    requires rt.Valid() && rt.owned == keep + multiset{own} + multiset{preds} + multiset{p}
    requires Live(rt.cells, own) && rt.cells[own] == Cell(1, SeqCell(FILTER), [Null, Null])
    requires IsPreds(rt.cells, preds) && IsPreds(rt.cells, p)
    modifies rt
    ensures rt.Valid() && rt.owned == keep + multiset{own} + multiset{out}
    ensures Live(rt.cells, own) && rt.cells[own] == old(rt.cells)[own] && out != own
    ensures IsPreds(rt.cells, out) && GrowsInPlace(rt.cells, out)
    ensures out == if GrowsInPlace(old(rt.cells), preds) then preds else |old(rt.cells)|
    ensures |rt.cells| == |old(rt.cells)| + if GrowsInPlace(old(rt.cells), preds) then 0 else 1
    ensures Items(rt.cells, out) == Items(old(rt.cells), preds) + Items(old(rt.cells), p)
    ensures Untouched(old(rt.cells), rt.cells, {out}) && OnlyClosuresGain(old(rt.cells), rt.cells)
  {
    ghost var h, others := rt.cells, keep + multiset{own};
    assert rt.owned == others + multiset{preds, p};
    out := Join(rt, preds, p, n, others);
    OwnedLives(h, others + multiset{preds, p}, own);
    OwnedLives(rt.cells, rt.owned, own);
    assert NoGain(h, rt.cells, own);
  }

  /** Writes the predicate field of a stage whose source has left it. */
  method SetPreds(rt: Runtime, own: Ref, now: Word, ghost keep: multiset<Ref>, ghost give: multiset<Ref>, ghost take: multiset<Ref>)
    requires rt.Valid() && rt.owned == keep + multiset{own} + give && give == PtrOf(now)
    requires IsSeq(rt.cells, own) && rt.cells[own].kind == SeqCell(FILTER) && rt.cells[own].slots[0] == Null
    requires take == PtrOf(rt.cells[own].slots[1])
    modifies rt
    ensures rt.Valid() && rt.owned == keep + multiset{own} + take
    ensures rt.cells == old(rt.cells)[own := Cell(old(rt.cells)[own].rc, SeqCell(FILTER), [Null, now])]
  {
    var was := rt.cells[own].slots[1];
    PtrsTwo(Null, was);
    PtrsTwo(Null, now);
    assert rt.cells[own].slots == [Null, was];
    rt.Write(own, SeqCell(FILTER), [Null, now], keep + multiset{own} + take);
  }

  lemma TwoHolders(h: Heap, a: Ref, b: Ref, i: nat, j: nat, p: Ref)
    requires Live(h, a) && Live(h, b) && a != b && i < |h[a].slots| && j < |h[b].slots|
    requires h[a].slots[i] == Ptr(p) && h[b].slots[j] == Ptr(p)
    ensures Out(h, p) >= 2
  {
    PtrsUpdate(h[a].slots, i, Null, p);
    OutUpdate(h, a, Free, p);
    SlotOwns(h[a := Free], b, j);
  }

  lemma FilterNone(w: World, xs: seq<int>)
    ensures Filtered(w, [], xs) == xs && NeverQuits(w, [], xs)
  {
  }

  lemma CodesJoin(h: Heap, a: seq<Word>, b: seq<Word>)
    ensures CodesOf(h, a + b) == CodesOf(h, a) + CodesOf(h, b)
  {
  }

  lemma {:induction false} LowItemsAreClosures(g: Heap, chain: seq<Ref>, s: Ref, k: nat)
    requires k <= |chain| && forall i :: 0 <= i < |chain| ==> Stage(g, chain, i, s)
    ensures ClosuresIn(g, LowItems(g, chain, s, k))
    decreases |chain| - k
  {
    if k < |chain| {
      LowItemsAreClosures(g, chain, s, k + 1);
      assert Stage(g, chain, k, s);
    }
  }

  /** The lowest source, filtered by the collected predicates in their order, is what the top
      of the chain stands for. */
  lemma {:induction false} ChainMeans(w: World, g: Heap, mean: seq<Mean>, chain: seq<Ref>, s0: Ref, s: Ref, k: nat)
    requires Consistent(w, g, mean) && Chain(g, chain, s0, s) && k <= |chain| && s < |mean|
    ensures var top := if k == |chain| then s else chain[k];
      top < |mean| && mean[top].xs == Filtered(w, CodesOf(g, LowItems(g, chain, s, k)), mean[s].xs)
      && (mean[top].calm ==> mean[s].calm && NeverQuits(w, CodesOf(g, LowItems(g, chain, s, k)), mean[s].xs))
    decreases |chain| - k
  {
    if k == |chain| {
      FilterNone(w, mean[s].xs);
    } else {
      ChainMeans(w, g, mean, chain, s0, s, k + 1);
      assert Stage(g, chain, k, s) && CellOk(w, g, mean, chain[k]);
      var p := g[chain[k]].slots[1].ref;
      CodesJoin(g, LowItems(g, chain, s, k + 1), Items(g, p));
      FilterTwice(w, CodesOf(g, LowItems(g, chain, s, k + 1)), Codes(g, p), mean[s].xs);
    }
  }

  lemma SameItems(g: Heap, h: Heap, except: set<Ref>, p: Ref, ws: seq<Word>)
    requires IsPreds(h, p) && Items(h, p) == ws && ClosuresIn(g, ws) && Untouched(g, h, except)
    requires forall r <- except :: Live(g, r) && Live(h, r) ==> !g[r].kind.ClosureCell?
    ensures Codes(h, p) == CodesOf(g, ws)
  {
    forall i | 0 <= i < |ws| ensures Live(h, ws[i].ref) { assert ws[i] == Items(h, p)[i]; }
    SameClosures(g, h, except, ws);
  }

  lemma AbsorbedCodes(g: Heap, h: Heap, chain: seq<Ref>, s0: Ref, s: Ref, own: Ref, out: Ref)
    requires Chain(g, chain, s0, s) && BeingRead(g, own)
    requires Untouched(g, h, InChain(chain) + {own, out}) && IsPreds(h, out) && (Live(g, out) ==> g[out].kind.ArrayCell?)
    requires Items(h, out) == LowItems(g, chain, s, 0) + Items(g, g[own].slots[1].ref)
    ensures Codes(h, out) == CodesOf(g, LowItems(g, chain, s, 0)) + Codes(g, g[own].slots[1].ref)
  {
    var low, mine := LowItems(g, chain, s, 0), Items(g, g[own].slots[1].ref);
    LowItemsAreClosures(g, chain, s, 0);
    ChainCells(g, chain, s0, s);
    CodesJoin(g, low, mine);
    SameItems(g, h, InChain(chain) + {own, out}, out, low + mine);
  }

  lemma AbsorbedMeans(w: World, g: Heap, h: Heap, mean: seq<Mean>, chain: seq<Ref>, s0: Ref, s: Ref, own: Ref, out: Ref)
    requires Consistent(w, g, mean) && Chain(g, chain, s0, s) && s < |mean| && BeingRead(g, own)
    requires Untouched(g, h, InChain(chain) + {own, out}) && IsPreds(h, out) && (Live(g, out) ==> g[out].kind.ArrayCell?)
    requires Items(h, out) == LowItems(g, chain, s, 0) + Items(g, g[own].slots[1].ref)
    ensures s0 < |mean| && Filtered(w, Codes(h, out), mean[s].xs) == Filtered(w, Codes(g, g[own].slots[1].ref), mean[s0].xs)
    ensures mean[s0].calm && NeverQuits(w, Codes(g, g[own].slots[1].ref), mean[s0].xs) ==> mean[s].calm && NeverQuits(w, Codes(h, out), mean[s].xs)
  {
    ChainMeans(w, g, mean, chain, s0, s, 0);
    AbsorbedCodes(g, h, chain, s0, s, own, out);
    FilterTwice(w, CodesOf(g, LowItems(g, chain, s, 0)), Codes(g, g[own].slots[1].ref), mean[s].xs);
  }

  /** Nobody but the stage being read refers to the array the absorb has written. */
  lemma MildlyAbsorbed(g: Heap, h: Heap, owned: multiset<Ref>, chain: seq<Ref>, own: Ref, out: Ref)
    requires Counted(h, owned) && IsSeq(g, own) && forall c <- chain :: !Live(h, c)
    requires Live(h, own) && h[own] == Cell(1, SeqCell(FILTER), [Null, Ptr(out)])
    requires GrowsInPlace(h, out) && (Live(g, out) ==> g[out].kind.ArrayCell?)
    ensures Mild(g, h, InChain(chain) + {own, out})
  {
    var except := InChain(chain) + {own, out};
    forall r: Ref, i | Live(h, r) && r !in except && 0 <= i < |h[r].slots| ensures h[r].slots[i] != Ptr(out) {
      if h[r].slots[i] == Ptr(out) {
        TwoHolders(h, r, own, i, 1, out);
        OwnedLives(h, owned, out);
        assert false;
      }
    }
    forall x <- except ensures MildAt(g, h, except, x) { }
  }

  lemma AbsorbedConsistent(w: World, g: Heap, h: Heap, owned: multiset<Ref>, mean: seq<Mean>, mean': seq<Mean>,
                           chain: seq<Ref>, s0: Ref, s: Ref, own: Ref, out: Ref)
    requires Consistent(w, g, mean) && Chain(g, chain, s0, s) && BeingRead(g, own)
    requires Counted(h, owned) && mean <= mean' && |mean'| == |h| && OnlyArraysAdded(g, h)
    requires Untouched(g, h, InChain(chain) + {own, out}) && forall c <- chain :: !Live(h, c)
    requires Live(h, own) && h[own] == Cell(1, SeqCell(FILTER), [Null, Ptr(out)])
    requires IsPreds(h, out) && GrowsInPlace(h, out) && (Live(g, out) ==> g[out].kind.ArrayCell?)
    ensures Consistent(w, h, mean')
  {
    var except := InChain(chain) + {own, out};
    MildlyAbsorbed(g, h, owned, chain, own, out);
    forall r: Ref | Live(h, r) && h[r].kind.SeqCell? ensures CellOk(w, h, mean', r) {
      if r != own {
        assert r < |g| && r !in InChain(chain);
        assert CellOk(w, g, mean, r);
        SameCell(w, g, h, owned, mean, mean', r, except);
      }
    }
  }

  /** What absorbing does to the heap `g`, giving `h`: the chain goes down as far as stages can
      be absorbed, its cells are freed, its closures go ahead of those of `own`, the lowest
      stage's first, and apart from the array that `own` alone holds now, nothing anyone can
      see has changed. */
  ghost predicate Absorbed(g: Heap, h: Heap, chain: seq<Ref>, s0: Ref, s: Ref, own: Ref) {
    && Chain(g, chain, s0, s) && !Absorbable(g, s)
    && IsSeq(h, s) && BeingRead(g, own) && BeingRead(h, own)
    && (forall c <- chain :: !Live(h, c))
    && h[own].rc == 1 && OnlyArraysAdded(g, h)
    && var p, out := g[own].slots[1].ref, h[own].slots[1].ref;
      && Items(h, out) == LowItems(g, chain, s, 0) + Items(g, p)
      && Untouched(g, h, InChain(chain) + (if chain == [] then {} else {own, out}))
      && (chain != [] ==> GrowsInPlace(h, out) && (Live(g, out) ==> g[out].kind.ArrayCell?))
  }

  /** The situation when the climb has reached the top. */
  ghost predicate Climbed(g: Heap, gOwned: multiset<Ref>, h: Heap, owned: multiset<Ref>, keep: multiset<Ref>,
                          chain: seq<Ref>, s0: Ref, s: Ref, own: Ref, preds: Word) {
    && Counted(g, gOwned) && gOwned == keep + multiset{own} + multiset{s0} && BeingRead(g, own) && g[own].rc == 1
    && Counted(h, owned) && owned == keep + multiset{own} + multiset{s} + PtrOf(preds)
    && Climbing(g, h, chain, s0, s, 0, preds) && NoGain(g, h, own) && own !in chain
    && IsSeq(g, s0) && IsSeq(g, s) && s !in chain && !Absorbable(g, s)
  }

  /** What the chain ends in is not the stage being read: that one has no owner but the frame. */
  lemma SourceNotOwn(g: Heap, gOwned: multiset<Ref>, keep: multiset<Ref>, chain: seq<Ref>, s0: Ref, s: Ref, own: Ref)
    requires Counted(g, gOwned) && gOwned == keep + multiset{own} + multiset{s0} && Live(g, own) && g[own].rc == 1
    requires Chain(g, chain, s0, s)
    ensures s != own && keep[own] == 0
  {
    OwnedLives(g, gOwned, own);
    if chain != [] {
      var last := |chain| - 1;
      assert Stage(g, chain, last, s);
      SlotOwns(g, chain[last], 0);
    }
  }

  lemma ClimbedOwn(g: Heap, gOwned: multiset<Ref>, h: Heap, owned: multiset<Ref>, keep: multiset<Ref>,
                   chain: seq<Ref>, s0: Ref, s: Ref, own: Ref, preds: Word)
    requires Climbed(g, gOwned, h, owned, keep, chain, s0, s, own, preds)
    ensures Live(h, own) && h[own] == g[own] && IsSeq(h, s) && s != own
    ensures IsPreds(h, g[own].slots[1].ref) && Items(h, g[own].slots[1].ref) == Items(g, g[own].slots[1].ref)
  {
    SourceNotOwn(g, gOwned, keep, chain, s0, s, own);
    ChainCells(g, chain, s0, s);
    OwnedLives(h, owned, own);
    OwnedLives(h, owned, s);
    StaysIn(g, h, chain, preds, own);
    StaysIn(g, h, chain, preds, s);
    assert gOwned[own] == 1;
    assert owned[own] == 1 + PtrOf(preds)[own];
    assert PtrOf(preds)[own] == 0;
    StaysBeingRead(g, gOwned, h, owned, own);
    OwnPreds(g, h, owned, chain, preds, own);
  }

  lemma StaysIn(g: Heap, h: Heap, chain: seq<Ref>, preds: Word, r: Ref)
    requires Untouched(g, h, InChain(chain) + Grown(h, preds)) && GrewFromArray(g, h, preds)
    requires IsSeq(g, r) && Live(h, r) && r !in chain
    ensures Alike(g[r], h[r])
  {
  }

  /** The stage over its source stands for what it stood for. */
  ghost predicate SameMeaning(w: World, g: Heap, h: Heap, mean: seq<Mean>, mean': seq<Mean>, s0: Ref, s: Ref, own: Ref)
    requires BeingRead(g, own) && BeingRead(h, own)
  {
    && Consistent(w, h, mean') && mean <= mean' && s < |mean'| && s0 < |mean|
    && Filtered(w, Codes(h, h[own].slots[1].ref), mean'[s].xs) == Filtered(w, Codes(g, g[own].slots[1].ref), mean[s0].xs)
    && mean'[s].rank <= mean[s0].rank
    && (mean[s0].calm && NeverQuits(w, Codes(g, g[own].slots[1].ref), mean[s0].xs) ==>
          mean'[s].calm && NeverQuits(w, Codes(h, h[own].slots[1].ref), mean'[s].xs))
  }

  function Extended(mean: seq<Mean>, n: nat): seq<Mean>
    requires |mean| <= n
    ensures |Extended(mean, n)| == n && mean <= Extended(mean, n)
  {
    mean + seq(n - |mean|, i => Mean([], 0, true))
  }

  lemma FinishEmpty(w: World, g: Heap, gOwned: multiset<Ref>, h: Heap, owned: multiset<Ref>, keep: multiset<Ref>,
                    mean: seq<Mean>, s0: Ref, s: Ref, own: Ref)
    requires Climbed(g, gOwned, h, owned, keep, [], s0, s, own, Null) && Consistent(w, g, mean)
    ensures Absorbed(g, h, [], s0, s, own) && SameMeaning(w, g, h, mean, Extended(mean, |h|), s0, s, own)
  {
    ClimbedOwn(g, gOwned, h, owned, keep, [], s0, s, own, Null);
    var p, mean' := g[own].slots[1].ref, Extended(mean, |h|);
    SameClosures(g, h, {}, Items(g, p));
    forall r: Ref | Live(h, r) && h[r].kind.SeqCell? ensures CellOk(w, h, mean', r) {
      assert r < |g| && Live(g, r);
      SameCell(w, g, h, owned, mean, mean', r, {});
    }
  }

  /** The climb and the final join, taken together. */
  lemma ComposeWrites(g: Heap, h: Heap, chain: seq<Ref>, s0: Ref, s: Ref, preds: Ref, h2: Heap, own: Ref, out: Ref)
    requires Climbing(g, h, chain, s0, s, 0, Ptr(preds)) && Untouched(h, h2, {own, out}) && IsSeq(g, own)
    requires out == (if GrowsInPlace(h, preds) then preds else |h|)
    requires |h2| == |h| + if GrowsInPlace(h, preds) then 0 else 1
    requires GrowsInPlace(h2, out) && Live(h2, own) && own !in chain
    ensures Untouched(g, h2, InChain(chain) + {own, out}) && OnlyArraysAdded(g, h2)
    ensures (Live(g, out) ==> g[out].kind.ArrayCell?) && out != own
    ensures forall c <- chain :: !Live(h2, c)
  {
    ChainCells(g, chain, s0, s);
    assert own !in Grown(h, Ptr(preds)) by { if own == preds { assert GrewFromArray(g, h, Ptr(preds)); } }
    forall c <- chain ensures !Live(h2, c) {
      var i :| 0 <= i < |chain| && chain[i] == c;
      assert !Live(h, chain[i]) && c != out && c != own;
    }
  }

  lemma FinishChain(w: World, g: Heap, mean: seq<Mean>, chain: seq<Ref>, s0: Ref, s: Ref, own: Ref, h2: Heap, owned2: multiset<Ref>, out: Ref)
    requires Consistent(w, g, mean) && Chain(g, chain, s0, s) && BeingRead(g, own) && IsSeq(g, s) && s !in chain && s != own
    requires chain != [] && Ranked(mean, chain, s) && !Absorbable(g, s)
    requires Counted(h2, owned2) && s in owned2
    requires Live(h2, own) && h2[own] == Cell(1, SeqCell(FILTER), [Null, Ptr(out)])
    requires IsPreds(h2, out) && GrowsInPlace(h2, out)
    requires Items(h2, out) == LowItems(g, chain, s, 0) + Items(g, g[own].slots[1].ref)
    requires Untouched(g, h2, InChain(chain) + {own, out}) && OnlyArraysAdded(g, h2)
    requires (Live(g, out) ==> g[out].kind.ArrayCell?) && forall c <- chain :: !Live(h2, c)
    ensures Absorbed(g, h2, chain, s0, s, own) && SameMeaning(w, g, h2, mean, Extended(mean, |h2|), s0, s, own)
  {
    OwnedLives(h2, owned2, s);
    AbsorbedMeans(w, g, h2, mean, chain, s0, s, own, out);
    AbsorbedConsistent(w, g, h2, owned2, mean, Extended(mean, |h2|), chain, s0, s, own, out);
    assert mean[s].rank < mean[chain[0]].rank;
    assert s !in InChain(chain) && Alike(g[s], h2[s]);
  }

  ghost predicate KeptSeqs(g: Heap, h: Heap, keep: multiset<Ref>) {
    forall x: Ref :: x in keep ==> SeqGain(g, h, x)
  }

  lemma KeptToTheEnd(g: Heap, h: Heap, h': Heap, keep: multiset<Ref>, chain: seq<Ref>, preds: Word)
    requires Kept(g, h, keep) && (h' == h || NoSeqGains(h, h'))
    requires Untouched(g, h, InChain(chain) + Grown(h, preds)) && GrewFromArray(g, h, preds)
    requires forall x: Ref :: x in keep ==> Live(h, x) && x !in chain
    ensures KeptSeqs(g, h', keep)
  {
    forall x: Ref | x in keep ensures SeqGain(g, h', x) {
      assert NoGain(g, h, x) && (h' == h || SeqGain(h, h', x));
      if IsSeq(g, x) { StaysIn(g, h, chain, preds, x); }
    }
  }

  lemma KeptLive(h: Heap, owned: multiset<Ref>, keep: multiset<Ref>)
    requires Counted(h, owned) && keep <= owned
    ensures forall x: Ref :: x in keep ==> Live(h, x)
  {
    forall x: Ref | x in keep ensures Live(h, x) { OwnedLives(h, owned, x); }
  }

  /** What the two walks leave. */
  lemma Merged(w: World, g: Heap, gOwned: multiset<Ref>, walked: Heap, h: Heap, owned: multiset<Ref>, keep: multiset<Ref>,
               mean: seq<Mean>, chain: seq<Ref>, s0: Ref, s: Ref, own: Ref, preds: Word)
    requires Counted(g, gOwned) && gOwned == keep + multiset{own} + multiset{s0} && BeingRead(g, own) && g[own].rc == 1 && IsSeq(g, s0)
    requires Walking(w, g, walked, mean, chain, s0, s, keep + multiset{own}) && IsSeq(walked, s) && !Absorbable(walked, s)
    requires Counted(h, owned) && owned == keep + multiset{own} + multiset{s} + PtrOf(preds)
    requires Climbing(g, h, chain, s0, s, 0, preds) && Kept(g, h, keep + multiset{own})
    ensures Climbed(g, gOwned, h, owned, keep, chain, s0, s, own, preds)
    ensures Kept(g, h, keep) && Ranked(mean, chain, s) && forall c <- chain :: c !in keep
  {
    assert own in keep + multiset{own};
    assert NoGain(g, h, own);
    forall c <- chain ensures c !in keep && c != own { assert c !in keep + multiset{own}; }
  }

  /** Both walks: the stages of the chain are gone, their closures are in `preds`. */
  method Merge(rt: Runtime, own: Ref, s0: Ref, mineN: nat, ghost keep: multiset<Ref>, ghost w: World, ghost mean: seq<Mean>)
    returns (s: Ref, n: nat, preds: Word, ghost chain: seq<Ref>)
    requires rt.Valid() && rt.owned == keep + multiset{own} + multiset{s0}
    requires Consistent(w, rt.cells, mean) && BeingRead(rt.cells, own) && rt.cells[own].rc == 1 && IsSeq(rt.cells, s0)
    modifies rt
    ensures Climbed(old(rt.cells), old(rt.owned), rt.cells, rt.owned, keep, chain, s0, s, own, preds)
    ensures Kept(old(rt.cells), rt.cells, keep) && Ranked(mean, chain, s) && forall c <- chain :: c !in keep
  {
    ghost var g, mine := rt.cells, keep + multiset{own};
    var below, down;
    s, below, down, chain := WalkDown(rt, s0, mine, w, mean);
    n := down + mineN;
    StartClimb(w, g, rt.cells, mean, chain, s0, s, mine);
    assert own in mine;
    ghost var walked := rt.cells;
    preds := Climb(rt, below, n, mine + multiset{s}, g, chain, s0, s, mine);
    Merged(w, g, old(rt.owned), walked, rt.cells, rt.owned, keep, mean, chain, s0, s, own, preds);
  }

  lemma NothingToDo(w: World, g: Heap, gOwned: multiset<Ref>, h: Heap, owned: multiset<Ref>, keep: multiset<Ref>,
                    mean: seq<Mean>, chain: seq<Ref>, s0: Ref, s: Ref, own: Ref)
    requires Climbed(g, gOwned, h, owned, keep, chain, s0, s, own, Null) && Consistent(w, g, mean)
    ensures Absorbed(g, h, chain, s0, s, own) && SameMeaning(w, g, h, mean, Extended(mean, |h|), s0, s, own)
  {
    assert chain == [];
    FinishEmpty(w, g, gOwned, h, owned, keep, mean, s0, s, own);
  }

  lemma ChainDone(w: World, g: Heap, gOwned: multiset<Ref>, h: Heap, owned: multiset<Ref>, keep: multiset<Ref>, mean: seq<Mean>,
                  chain: seq<Ref>, s0: Ref, s: Ref, own: Ref, preds: Ref, h2: Heap, owned2: multiset<Ref>, out: Ref)
    requires Climbed(g, gOwned, h, owned, keep, chain, s0, s, own, Ptr(preds)) && Consistent(w, g, mean) && Ranked(mean, chain, s)
    requires Counted(h2, owned2) && s in owned2
    requires Live(h2, own) && h2[own] == Cell(1, SeqCell(FILTER), [Null, Ptr(out)])
    requires IsPreds(h2, out) && GrowsInPlace(h2, out)
    requires Live(h, own) && h[own] == g[own]
    requires IsPreds(h, g[own].slots[1].ref) && Items(h, g[own].slots[1].ref) == Items(g, g[own].slots[1].ref)
    requires Items(h2, out) == Items(h, preds) + Items(h, h[own].slots[1].ref)
    requires out == (if GrowsInPlace(h, preds) then preds else |h|)
    requires |h2| == |h| + if GrowsInPlace(h, preds) then 0 else 1
    requires Untouched(h, h2, {own, out})
    ensures Absorbed(g, h2, chain, s0, s, own) && SameMeaning(w, g, h2, mean, Extended(mean, |h2|), s0, s, own)
  {
    SourceNotOwn(g, gOwned, keep, chain, s0, s, own);
    ComposeWrites(g, h, chain, s0, s, preds, h2, own, out);
    FinishChain(w, g, mean, chain, s0, s, own, h2, owned2, out);
  }

  /** Merges the stages below `own` into it, as far down as the frame alone sees them. */
  method Absorb(rt: Runtime, own: Ref, s0: Ref, ghost keep: multiset<Ref>, ghost w: World, ghost mean: seq<Mean>)
    returns (s: Ref, ghost mean': seq<Mean>, ghost chain: seq<Ref>)
    requires rt.Valid() && rt.owned == keep + multiset{own} + multiset{s0}
    requires Consistent(w, rt.cells, mean) && BeingRead(rt.cells, own) && rt.cells[own].rc == 1 && IsSeq(rt.cells, s0)
    modifies rt
    ensures rt.Valid() && rt.owned == keep + multiset{own} + multiset{s}
    ensures Absorbed(old(rt.cells), rt.cells, chain, s0, s, own)
    ensures SameMeaning(w, old(rt.cells), rt.cells, mean, mean', s0, s, own)
    ensures KeptSeqs(old(rt.cells), rt.cells, keep)
    ensures chain == [] <==> !(old(rt.cells)[s0].kind.state == FILTER && old(rt.cells)[s0].slots[0] != Null && old(rt.cells)[s0].rc == 1)
    ensures !(old(rt.cells)[s].kind.state == FILTER && old(rt.cells)[s].slots[0] != Null && old(rt.cells)[s].rc == 1)
  {
    ghost var g, gOwned := rt.cells, rt.owned;
    var n, preds;
    s, n, preds, chain := Merge(rt, own, s0, |Items(rt.cells, rt.cells[own].slots[1].ref)|, keep, w, mean);
    ghost var h, owned := rt.cells, rt.owned;
    FirstAbsorbable(g, chain, s0, s);
    ClimbedOwn(g, gOwned, h, owned, keep, chain, s0, s, own, preds);
    KeptLive(h, owned, keep);
    if preds == Null {
      NothingToDo(w, g, gOwned, h, owned, keep, mean, chain, s0, s, own);
    } else {
      Extend(rt, own, s0, s, preds.ref, n, keep, w, mean, chain, g, gOwned);
    }
    mean' := Extended(mean, |rt.cells|);
    KeptToTheEnd(g, h, rt.cells, keep, chain, preds);
  }

  lemma FirstAbsorbable(g: Heap, chain: seq<Ref>, s0: Ref, s: Ref)
    requires Chain(g, chain, s0, s) && !Absorbable(g, s)
    ensures chain == [] <==> !Absorbable(g, s0)
  {
    assert chain != [] ==> Stage(g, chain, 0, s);
  }

  /** The last join: the collected closures go ahead of the stage's own. */
  method Extend(rt: Runtime, own: Ref, s0: Ref, s: Ref, preds: Ref, n: nat, ghost keep: multiset<Ref>, ghost w: World, ghost mean: seq<Mean>,
                ghost chain: seq<Ref>, ghost g: Heap, ghost gOwned: multiset<Ref>)
    requires Climbed(g, gOwned, rt.cells, rt.owned, keep, chain, s0, s, own, Ptr(preds))
    requires Consistent(w, g, mean) && Ranked(mean, chain, s)
    requires Live(rt.cells, own) && rt.cells[own] == g[own]
    requires IsPreds(rt.cells, g[own].slots[1].ref) && Items(rt.cells, g[own].slots[1].ref) == Items(g, g[own].slots[1].ref)
    modifies rt
    ensures rt.Valid() && rt.owned == keep + multiset{own} + multiset{s}
    ensures Absorbed(g, rt.cells, chain, s0, s, own) && SameMeaning(w, g, rt.cells, mean, Extended(mean, |rt.cells|), s0, s, own)
    ensures NoSeqGains(old(rt.cells), rt.cells)
  {
    ghost var h, owned := rt.cells, rt.owned;
    assert BeingRead(h, own);
    var out := Prepend(rt, own, preds, n, keep + multiset{s});
    ChainDone(w, g, gOwned, h, owned, keep, mean, chain, s0, s, own, preds, rt.cells, rt.owned, out);
  }
}
