/** Whole runs over lazy cells: one read with everything it promises, a second read of the same
    cell, and a sequence read to its end. */
module SeqRuns {
  import opened RcHeap
  import opened SeqPreds
  import opened Values
  import opened SeqWorld
  import opened SeqMeaning
  import opened SeqFrames
  import opened SeqReads
  import opened SeqFilter
  import opened SeqThunks
  import opened SeqForce

  /** Reads a cell. Whatever happens, counts equal owners, the reference to the cell is gone and
      everything else stands; a step that comes back is the first element of what the cell means,
      with a cell for the rest. A step does come back if no code on the way to the elements exits
      and no cell of the same or a lower rank is stuck, and none is stuck afterwards. */
  method Read(rt: Runtime, s: Ref, w: World, ghost keep: multiset<Ref>, ghost frozen: set<Ref>, ghost mean: seq<Mean>)
    returns (out: Outcome, ghost mean': seq<Mean>)
    requires Honest(w) && rt.Valid() && rt.owned == keep + multiset{s}
    requires Consistent(w, rt.cells, mean) && Frozen(rt.cells, keep, frozen) && IsSeq(rt.cells, s)
    modifies rt
    ensures rt.Valid() && rt.owned == Got(keep, out) && Consistent(w, rt.cells, mean')
    ensures Evolved(old(rt.cells), mean, rt.cells, mean', keep, frozen)
    ensures out.Step? ==> StepOk(rt.cells, mean', out.ref, mean[s])
    ensures mean[s].calm && Quiet(old(rt.cells), mean, mean[s].rank + 1) ==> out.Step? && Quiet(rt.cells, mean', mean[s].rank + 1)
    ensures Stuck(old(rt.cells), s) ==> out == Panic
    ensures IsDone(old(rt.cells), s) ==> Recorded(old(rt.cells), s, out) && out.Step? && OnlyCounts(old(rt.cells), rt.cells)
    ensures s in keep ==> Recorded(rt.cells, s, out)
    ensures old(rt.cells)[s].kind.state == FILTER && out.Step? ==>
      FiltersFirst(w, old(rt.cells), mean, s, rt.cells, mean', out.ref)
  {
    ghost var n := mean[s].rank + 1;
    ghost var calm := mean[s].calm && Quiet(rt.cells, mean, n);
    ghost var k := Start(w, rt.cells, mean, keep, frozen, {}, calm, n);
    StartRead(w, rt.cells, mean, keep, frozen, calm, n, s);
    out, mean' := Force(rt, s, w, k, n);
    assert k.(busy := {}) == k;
    if calm { QuietNow(k, rt.cells, rt.owned, mean', n); }
  }

  // ---------- at most once ----------

  ghost predicate Later(h: Heap, mean: seq<Mean>, h': Heap, mean': seq<Mean>, s: Ref) {
    Evolved(h, mean, h', mean', multiset{s}, {})
  }

  /** An evaluated cell that somebody keeps holds its step through any number of reads. */
  lemma {:induction false} StaysEvaluated(hs: seq<Heap>, means: seq<seq<Mean>>, s: Ref, step: Ref)
    requires |hs| == |means| > 0 && Evaluated(hs[0], s, step)
    requires forall i :: 0 <= i < |hs| - 1 ==> Later(hs[i], means[i], hs[i + 1], means[i + 1], s)
    ensures Evaluated(hs[|hs| - 1], s, step)
  {
    if |hs| > 1 {
      var last := |hs| - 1;
      StaysEvaluated(hs[..last], means[..last], s, step);
      assert Later(hs[last - 1], means[last - 1], hs[last], means[last], s);
      assert SameReference(hs[last - 1], means[last - 1], hs[last], means[last], s);
    }
  }

  /** Two reads of a shared cell: if the first comes back, the second gives the same step and runs
      nothing. */
  method ReadTwice(rt: Runtime, s: Ref, w: World, ghost keep: multiset<Ref>, ghost mean: seq<Mean>)
    returns (first: Outcome, second: Outcome)
    requires Honest(w) && rt.Valid() && rt.owned == keep + multiset{s} + multiset{s}
    requires Consistent(w, rt.cells, mean) && IsSeq(rt.cells, s)
    modifies rt
    ensures rt.Valid()
    ensures first.Step? ==> second == first && rt.owned == keep + multiset{first.ref} + multiset{first.ref}
    ensures !first.Step? ==> rt.owned == keep + multiset{s}
  {
    ghost var mean1;
    first, mean1 := Read(rt, s, w, keep + multiset{s}, {}, mean);
    second := first;
    if first.Step? {
      assert rt.owned == keep + multiset{first.ref} + multiset{s};
      ghost var mean2;
      second, mean2 := Read(rt, s, w, keep + multiset{first.ref}, {}, mean1);
    }
  }

  // ---------- a sequence read to its end ----------

  /** Where the loop over a sequence is: `xs` has been read of what means `all`. */
  ghost predicate Reading(k: Start, h: Heap, owned: multiset<Ref>, mean: seq<Mean>, s: Ref, xs: seq<int>, all: seq<int>) {
    && InFrame(k, h, owned, mean) && owned == k.keep + multiset{s} && IsSeq(h, s) && k.busy == {}
    && xs + mean[s].xs == all && (k.calm ==> mean[s].calm && mean[s].rank < k.rank)
  }

  /** One element, and the cell of the rest; nothing more when the read is not over with one. */
  method Next(rt: Runtime, s: Ref, w: World, ghost k: Start, ghost mean: seq<Mean>, ghost xs: seq<int>, ghost all: seq<int>)
    returns (more: bool, done: bool, x: int, rest: Ref, ghost mean': seq<Mean>)
    requires k.w == w && Honest(w) && Reading(k, rt.cells, rt.owned, mean, s, xs, all)
    modifies rt
    ensures more ==> Reading(k, rt.cells, rt.owned, mean', rest, xs + [x], all) && mean'[rest].rank < mean[s].rank
    ensures !more ==> InFrame(k, rt.cells, rt.owned, mean') && rt.owned == k.keep && (done ==> xs == all) && (k.calm ==> done)
  {
    ghost var m := mean[s];
    var out;
    out, mean' := ForceWithin(rt, s, w, k.keep, k, mean, m.rank);
    more, done, x, rest := false, false, 0, s;
    if out.Step? { more, done, x, rest := Open(rt, out.ref, k, mean', m, xs, all); }
  }

  /** Takes a step apart. */
  method Open(rt: Runtime, step: Ref, ghost k: Start, ghost mean: seq<Mean>, ghost m: Mean, ghost xs: seq<int>, ghost all: seq<int>)
    returns (more: bool, done: bool, x: int, rest: Ref)
    requires Held(k, rt.cells, rt.owned, mean, step, m) && k.busy == {} && xs + m.xs == all && (k.calm ==> m.calm && m.rank < k.rank)
    modifies rt
    ensures more ==> Reading(k, rt.cells, rt.owned, mean, rest, xs + [x], all) && mean[rest].rank < m.rank
    ensures !more ==> InFrame(k, rt.cells, rt.owned, mean) && rt.owned == k.keep && done && xs == all
  {
    var ws := rt.cells[step].slots;
    if ws == [] {
      Discard(rt, step, k.keep, k, mean);
      return false, true, 0, step;
    }
    more, done, x, rest := true, false, Element(rt.cells, ws[0]), ws[1].ref;
    assert m.xs == [x] + mean[rest].xs;
    assert xs + [x] + mean[rest].xs == all;
    FollowRest(rt, step, rest, k.keep, k, mean);
  }

  /** The elements of a sequence in a list. It ends with all of them, or in an exit; if no code on
      the way to them exits, it ends with all of them. */
  method ToList(rt: Runtime, s0: Ref, w: World, ghost keep: multiset<Ref>, ghost frozen: set<Ref>, ghost mean0: seq<Mean>)
    returns (xs: seq<int>, done: bool, ghost mean: seq<Mean>)
    requires Honest(w) && rt.Valid() && rt.owned == keep + multiset{s0}
    requires Consistent(w, rt.cells, mean0) && Frozen(rt.cells, keep, frozen) && IsSeq(rt.cells, s0)
    modifies rt
    ensures rt.Valid() && rt.owned == keep && Consistent(w, rt.cells, mean)
    ensures Evolved(old(rt.cells), mean0, rt.cells, mean, keep, frozen)
    ensures done ==> xs == mean0[s0].xs
    ensures mean0[s0].calm && Quiet(old(rt.cells), mean0, mean0[s0].rank + 1) ==> done
  {
    ghost var n, all := mean0[s0].rank + 1, mean0[s0].xs;
    ghost var calm := mean0[s0].calm && Quiet(rt.cells, mean0, n);
    ghost var k := Start(w, rt.cells, mean0, keep, frozen, {}, calm, n);
    StartRead(w, rt.cells, mean0, keep, frozen, calm, n, s0);
    xs, done, mean := [], false, mean0;
    assert [] + all == all;
    var s, more := s0, true;
    while more
      invariant more ==> Reading(k, rt.cells, rt.owned, mean, s, xs, all)
      invariant !more ==> InFrame(k, rt.cells, rt.owned, mean) && rt.owned == keep && (done ==> xs == all) && (calm ==> done)
      decreases more, if more then mean[s].rank else 0
    {
      var x, rest;
      more, done, x, rest, mean := Next(rt, s, w, k, mean, xs, all);
      if more { xs, s := xs + [x], rest; }
    }
  }

  // ---------- a whole program ----------

  /** No element of `xs` makes the function of code `f` exit. */
  predicate NoneQuits(w: World, f: nat, xs: seq<int>) {
    forall i :: 0 <= i < |xs| ==> !w.quits(f, xs[i])
  }

  lemma {:induction false} MapNeverLeaves(w: World, f: nat, xs: seq<int>)
    requires NoneQuits(w, f, xs)
    ensures NeverLeaves(w, MapEach(f), xs)
    decreases xs
  {
    if xs != [] {
      assert forall i :: 0 <= i < |xs[1..]| ==> xs[1..][i] == xs[i + 1];
      MapNeverLeaves(w, f, xs[1..]);
    }
  }

  lemma OneNeverQuits(w: World, p: nat, xs: seq<int>)
    requires NoneQuits(w, p, xs)
    ensures NeverQuits(w, [p], xs)
  {
    forall i | 0 <= i < |xs| ensures !Quits(w, [p], xs[i]) {
      forall j: nat ensures !QuitsAt(w, [p], xs[i], j) { assert !w.quits(p, xs[i]); }
    }
  }

  /** Filters a mapped range and reads it to its end, in a program that defers nothing but what
      the library defers: whatever its functions do, there is nothing left to assume. A range
      panics on a step of zero. */
  method Pipeline(a: int, hi: int, gap: int, f: nat, p: nat, w: World) returns (xs: seq<int>, done: bool)
    requires forall c, m :: !w.gives(c, m)
    ensures gap == 0 ==> !done
    ensures gap != 0 && done ==> xs == Filtered(w, [p], Staged(w, MapEach(f), Range(a, hi, gap)))
    ensures gap != 0 && NoneQuits(w, f, Range(a, hi, gap)) && NoneQuits(w, p, Staged(w, MapEach(f), Range(a, hi, gap))) ==> done
  {
    if gap == 0 { return [], false; }
    LibraryIsHonest(w);
    var rt := new Runtime();
    ghost var k := Start(w, [], [], multiset{}, {}, {}, true, 0);
    ghost var r := Range(a, hi, gap);
    ghost var rm := Mean(r, |r|, true);
    var source, mean := DeferRange(rt, a, hi, gap, k, [], rm);
    ghost var mm := Mean(Staged(w, MapEach(f), r), |r| + 1, NoneQuits(w, f, r));
    if mm.calm { MapNeverLeaves(w, f, r); }
    var mapped;
    mapped, mean := MapOver(rt, source, f, w, k, mean, mm);
    ghost var fm := Mean(Filtered(w, [p], mm.xs), |r| + 2, mm.calm && NoneQuits(w, p, mm.xs));
    if fm.calm { OneNeverQuits(w, p, mm.xs); }
    var kept;
    kept, mean := FilterOver(rt, mapped, p, w, k, mean, mm, fm);
    xs, done, mean := ToList(rt, kept, w, multiset{}, {}, mean);
  }

  /** `map`: the function is a closure of code `f` that captures nothing. */
  method MapOver(rt: Runtime, source: Ref, f: nat, w: World, ghost k: Start, ghost mean: seq<Mean>, ghost m: Mean)
    returns (s: Ref, ghost mean': seq<Mean>)
    requires k.w == w && rt.owned == k.keep + multiset{source} && InFrame(k, rt.cells, rt.owned, mean) && IsSeq(rt.cells, source)
    requires StagedFrom(w, MapEach(f), mean[source], m)
    modifies rt
    ensures rt.owned == k.keep + multiset{s} && InFrame(k, rt.cells, rt.owned, mean')
    ensures IsSeq(rt.cells, s) && s < |mean'| && mean'[s] == m
  {
    var ws: seq<Word> := [];
    assert rt.owned == rt.owned + Ptrs(ws);
    var fn := NewClosure(rt, f, ws, rt.owned, k, mean);
    s, mean' := DeferStage(rt, MAP, source, Ptr(fn), k.keep, w, k, mean + [Nothing], m);
  }

  /** `filter`, likewise: the cell holds its source and its predicate. */
  method FilterOver(rt: Runtime, source: Ref, p: nat, w: World, ghost k: Start, ghost mean: seq<Mean>, ghost src: Mean, ghost m: Mean)
    returns (s: Ref, ghost mean': seq<Mean>)
    requires k.w == w && rt.owned == k.keep + multiset{source} && InFrame(k, rt.cells, rt.owned, mean) && IsSeq(rt.cells, source)
    requires mean[source] == src && Stands(w, [p], src, m)
    modifies rt
    ensures rt.owned == k.keep + multiset{s} && InFrame(k, rt.cells, rt.owned, mean')
    ensures IsSeq(rt.cells, s) && s < |mean'| && mean'[s] == m
  {
    var ws: seq<Word> := [];
    assert rt.owned == rt.owned + Ptrs(ws);
    var pred := NewClosure(rt, p, ws, rt.owned, k, mean);
    assert Codes(rt.cells, pred) == [p];
    s, mean' := AddStage(rt, source, pred, k.keep, k, mean + [Nothing], m);
  }
}
