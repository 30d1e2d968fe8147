/** The list functions that call a closure. A closure may leave by a non-local exit instead of
    returning; the slots that a frame registers before it calls are released then. */
module Lists {
  import opened RcHeap
  import opened Values

  // ---------- what a closure may do ----------

  datatype Reply = Returned(value: Word) | Exited

  /** A closure, as its caller sees it: from the state of everything outside the heap, the heap and
      the arguments to a reply, and what it leaves of both. */
  type Callback<!S> = (S, Heap, seq<Word>) -> (Reply, S, Heap)

  /** What the closure is meant to do: the value it gives, when it leaves by an exit instead, and
      what either does to the state outside. With a log for a state, `next` records the calls. */
  datatype Manner<!S> = Manner(value: (S, seq<Val>) -> Val, exits: (S, seq<Val>) -> bool, next: (S, seq<Val>) -> S)

  function Gained(reply: Reply): multiset<Ref> {
    if reply.Returned? then PtrOf(reply.value) else multiset{}
  }

  /** `w` has the same value in both heaps, made of the same cells. */
  ghost predicate Kept(h: Heap, h': Heap, w: Word, v: Val)
    decreases v
  {
    && Means(h, w, v) && Means(h', w, v)
    && (w.Ptr? && v.Node? ==>
          h'[w.ref].slots == h[w.ref].slots
          && forall i :: 0 <= i < |v.children| ==> Kept(h, h', h[w.ref].slots[i], v.children[i]))
  }

  lemma {:induction false} KeptTwice(h: Heap, h1: Heap, h2: Heap, w: Word, v: Val)
    requires Kept(h, h1, w, v) && Kept(h1, h2, w, v)
    ensures Kept(h, h2, w, v)
    decreases v
  {
    if w.Ptr? && v.Node? {
      forall i | 0 <= i < |v.children| ensures Kept(h, h2, h[w.ref].slots[i], v.children[i]) {
        KeptTwice(h, h1, h2, h[w.ref].slots[i], v.children[i]);
      }
    }
  }

  lemma KeptSteps(h: Heap, h1: Heap, h2: Heap, keep: multiset<Ref>, more: multiset<Ref>)
    requires AllKept(h, h1, keep) && AllKept(h1, h2, more) && keep <= more
    ensures AllKept(h, h2, keep)
  {
    forall w: Word, v | (w.Ptr? ==> w.ref in keep) && Means(h, w, v) ensures Kept(h, h2, w, v) {
      assert Kept(h, h1, w, v);
      assert Kept(h1, h2, w, v);
      KeptTwice(h, h1, h2, w, v);
    }
  }

  ghost predicate AllKept(h: Heap, h': Heap, keep: multiset<Ref>) {
    forall w: Word, v {:trigger Kept(h, h', w, v)} :: (w.Ptr? ==> w.ref in keep) && Means(h, w, v) ==> Kept(h, h', w, v)
  }

  /** A call consumes its arguments, gives a value or exits, as it is meant to, and leaves alone
      what its caller still holds. */
  ghost predicate CallOk<S>(cb: Callback<S>, m: Manner<S>, st: S, h: Heap, keep: multiset<Ref>, args: seq<Word>, vals: seq<Val>) {
    Counted(h, keep + Ptrs(args)) && AllMean(h, args, vals) ==>
      var (reply, st', h') := cb(st, h, args);
      && Counted(h', keep + Gained(reply)) && AllKept(h, h', keep)
      && st' == m.next(st, vals) && (reply.Exited? <==> m.exits(st, vals))
      && (reply.Returned? ==> reply.value != Null && Means(h', reply.value, m.value(st, vals)))
  }

  ghost predicate Honest<S(!new)>(cb: Callback<S>, m: Manner<S>) {
    forall st, h, keep, args, vals :: CallOk(cb, m, st, h, keep, args, vals)
  }

  // ---------- what holds between two elements ----------

  /** The cursor `at` has reached the part `av` of the list `w`. */
  ghost predicate Within(h: Heap, w: Word, v: Val, at: Word, av: Val)
    decreases v
  {
    || (at == w && av == v)
    || (IsCons(h, w) && v.Node? && |v.children| == 2 && Within(h, h[w.ref].slots[1], v.children[1], at, av))
  }

  lemma {:induction false} WithinKept(h: Heap, h': Heap, w: Word, v: Val, at: Word, av: Val)
    requires Kept(h, h', w, v) && Within(h, w, v, at, av)
    ensures Means(h', at, av) && Within(h', w, v, at, av)
    decreases v
  {
    if !(at == w && av == v) {
      assert Kept(h, h', h[w.ref].slots[1], v.children[1]);
      WithinKept(h, h', h[w.ref].slots[1], v.children[1], at, av);
    }
  }

  lemma {:induction false} WithinNext(h: Heap, w: Word, v: Val, at: Word, av: Val)
    requires Means(h, w, v) && Within(h, w, v, at, av) && Means(h, at, av) && IsCons(h, at)
    ensures av.Node? && |av.children| == 2
    ensures Within(h, w, v, h[at.ref].slots[1], av.children[1])
    decreases v
  {
    ConsValue(h, at, av);
    if at == w && av == v {
    } else {
      ConsValue(h, w, v);
      WithinNext(h, h[w.ref].slots[1], v.children[1], at, av);
    }
  }

  /** Nothing is lost when cells are added or counted. */
  lemma {:induction false} AddsKept(h: Heap, h': Heap, w: Word, v: Val)
    requires Means(h, w, v) && forall r: Ref :: Agree(h, h', r)
    ensures Kept(h, h', w, v)
    decreases v
  {
    if w.Ptr? { assert Agree(h, h', w.ref); }
    if w.Ptr? && v.Node? {
      forall i | 0 <= i < |v.children| ensures Kept(h, h', h[w.ref].slots[i], v.children[i]) {
        AddsKept(h, h', h[w.ref].slots[i], v.children[i]);
      }
    }
  }

  lemma AddsAllKept(h: Heap, h': Heap)
    requires forall r: Ref :: Agree(h, h', r)
    ensures forall w: Word, v {:trigger Kept(h, h', w, v)} :: Means(h, w, v) ==> Kept(h, h', w, v)
  {
    forall w: Word, v | Means(h, w, v) ensures Kept(h, h', w, v) {
      AddsKept(h, h', w, v);
    }
  }

  /** The frame owns its registered slots and `extra`, the cursor is in the list `held[0]`, and
      the caller's values are as they were. */
  ghost predicate Walking(h0: Heap, h: Heap, owned: multiset<Ref>, keep: multiset<Ref>, held: seq<Word>, extra: multiset<Ref>,
      xv: Val, at: Word, av: Val)
  {
    && Counted(h, owned) && owned == keep + Ptrs(held) + extra
    && |held| > 0 && Means(h, held[0], xv) && Within(h, held[0], xv, at, av) && Means(h, at, av)
    && AllKept(h0, h, keep)
  }

  lemma WalkOn(h0: Heap, h: Heap, owned: multiset<Ref>, keep: multiset<Ref>, held: seq<Word>, extra: multiset<Ref>,
      xv: Val, at: Word, av: Val, h': Heap, owned': multiset<Ref>, extra': multiset<Ref>)
    requires Walking(h0, h, owned, keep, held, extra, xv, at, av) && AllKept(h, h', keep + Ptrs(held))
    requires Counted(h', owned') && owned' == keep + Ptrs(held) + extra'
    ensures Walking(h0, h', owned', keep, held, extra', xv, at, av)
  {
    HeldMeans(h, h', keep, held, 0, xv);
    WithinKept(h, h', held[0], xv, at, av);
    KeptSteps(h0, h, h', keep, keep + Ptrs(held));
  }

  /** The same when slots other than the first were written. */
  lemma Rehold(h0: Heap, h: Heap, owned: multiset<Ref>, keep: multiset<Ref>, held: seq<Word>, extra: multiset<Ref>,
      xv: Val, at: Word, av: Val, h': Heap, owned': multiset<Ref>, more: multiset<Ref>, held': seq<Word>, extra': multiset<Ref>)
    requires Walking(h0, h, owned, keep, held, extra, xv, at, av) && AllKept(h, h', more) && keep <= more
    requires |held'| == |held| && held'[0] == held[0] && (held[0].Ptr? ==> held[0].ref in more)
    requires Counted(h', owned') && owned' == keep + Ptrs(held') + extra'
    ensures Walking(h0, h', owned', keep, held', extra', xv, at, av)
  {
    assert Kept(h, h', held[0], xv);
    WithinKept(h, h', held[0], xv, at, av);
    KeptSteps(h0, h, h', keep, more);
  }

  lemma HeldMeans(h: Heap, h': Heap, keep: multiset<Ref>, held: seq<Word>, i: nat, v: Val)
    requires AllKept(h, h', keep + Ptrs(held)) && i < |held| && Means(h, held[i], v)
    ensures Kept(h, h', held[i], v) && Means(h', held[i], v)
  {
    if held[i].Ptr? { PtrsUpdate(held, i, Null, held[i].ref); }
  }

  // ---------- steps ----------

  /** What is still to come: the element `x` at hand, unless the list has ended, and the rest. */
  function Ahead(x: Word, v: Val, av: Val): seq<Val> {
    if x == Null then [] else [v] + Elements(av)
  }

  lemma Advance(done: seq<Val>, v: Val, av: Val)
    requires Present(done) && v != Absent
    ensures done + ([v] + Elements(av)) == (done + [v]) + Elements(av) && Present(done + [v])
  {
  }

  ghost predicate Grows(h: Heap, h': Heap) {
    forall w: Word, v :: Means(h, w, v) ==> Means(h', w, v)
  }

  /** The next element, or Null at the end of the list. */
  method Next(rt: Runtime, at: Word, ghost h0: Heap, ghost keep: multiset<Ref>, ghost held: seq<Word>,
      ghost xv: Val, ghost av: Val) returns (x: Word, at': Word, ghost v: Val, ghost av': Val)
    requires Walking(h0, rt.cells, rt.owned, keep, held, multiset{}, xv, at, av)
    modifies rt
    ensures Walking(h0, rt.cells, rt.owned, keep, held, PtrOf(x), xv, at', av')
    ensures Ahead(x, v, av') == Elements(av) && (x != Null ==> av' < av && v != Absent && Means(rt.cells, x, v))
    ensures Grows(old(rt.cells), rt.cells)
  {
    x, at', v, av' := Null, at, av, av;
    ConsValue(rt.cells, at, av);
    ghost var h := rt.cells;
    if IsCons(rt.cells, at) && rt.cells[at.ref].slots[0] != Null {
      x, at' := rt.cells[at.ref].slots[0], rt.cells[at.ref].slots[1];
      v, av' := av.children[0], av.children[1];
      WithinNext(h, held[0], xv, at, av);
      if x.Ptr? { SlotLives(h, rt.owned, at.ref, 0); }
      Share(rt, x);
      SharedKept(h, x, keep + Ptrs(held));
      WalkOn(h0, h, keep + Ptrs(held), keep, held, multiset{}, xv, at', av', rt.cells, rt.owned, PtrOf(x));
    }
  }

  lemma SharedKept(h: Heap, x: Word, keep: multiset<Ref>)
    requires x.Ptr? ==> Live(h, x.ref)
    ensures AllKept(h, Shared(h, x), keep) && Grows(h, Shared(h, x))
  {
    forall w: Word, v | Means(h, w, v) ensures Kept(h, Shared(h, x), w, v) && Means(Shared(h, x), w, v) {
      AddsKept(h, Shared(h, x), w, v);
    }
  }

  lemma NothingKept(h: Heap, keep: multiset<Ref>)
    ensures AllKept(h, h, keep)
  {
    forall w: Word, v | Means(h, w, v) ensures Kept(h, h, w, v) { AddsKept(h, h, w, v); }
  }

  /** `kai_decref`, which leaves unboxed values alone. */
  method DropWord(rt: Runtime, w: Word, ghost keep: multiset<Ref>)
    requires rt.Valid() && rt.owned == keep + PtrOf(w)
    modifies rt
    ensures rt.Valid() && rt.owned == keep && AllKept(old(rt.cells), rt.cells, keep)
  {
    ghost var h := rt.cells;
    if w.Ptr? {
      rt.Drop(w.ref, keep);
      forall u: Word, v | (u.Ptr? ==> u.ref in keep) && Means(h, u, v) ensures Kept(h, rt.cells, u, v) {
        if u.Ptr? { OwnedLives(rt.cells, rt.owned, u.ref); }
        CountsKept(h, rt.cells, rt.owned, u, v);
      }
    } else {
      NothingKept(h, keep);
    }
  }

  lemma {:induction false} CountsKept(h: Heap, h': Heap, owned': multiset<Ref>, w: Word, v: Val)
    requires Means(h, w, v) && OnlyCounts(h, h') && Counted(h', owned') && (w.Ptr? ==> Live(h', w.ref))
    ensures Kept(h, h', w, v)
    decreases v
  {
    CountsMean(h, h', owned', w, v);
    if w.Ptr? && v.Node? {
      forall i | 0 <= i < |v.children| ensures Kept(h, h', h[w.ref].slots[i], v.children[i]) {
        if h[w.ref].slots[i].Ptr? { SlotLives(h', owned', w.ref, i); }
        CountsKept(h, h', owned', h[w.ref].slots[i], v.children[i]);
      }
    }
  }

  /** An exit: every registered slot is released. */
  method Unwind(rt: Runtime, held: seq<Word>, ghost keep: multiset<Ref>)
    requires rt.Valid() && rt.owned == keep + Ptrs(held)
    modifies rt
    ensures rt.Valid() && rt.owned == keep && AllKept(old(rt.cells), rt.cells, keep)
  {
    var i := 0;
    ghost var h := rt.cells;
    assert held[0..] == held;
    NothingKept(h, keep);
    while i < |held|
      invariant i <= |held| && rt.Valid() && rt.owned == keep + Ptrs(held[i..]) && AllKept(h, rt.cells, keep)
    {
      ghost var h1, rest := rt.cells, keep + Ptrs(held[i + 1..]);
      NextHeld(keep, held, i);
      DropWord(rt, held[i], rest);
      KeptSteps(h, h1, rt.cells, keep, rest);
      i := i + 1;
    }
  }

  lemma NextHeld(keep: multiset<Ref>, held: seq<Word>, i: nat)
    requires i < |held|
    ensures keep + Ptrs(held[i..]) == keep + Ptrs(held[i + 1..]) + PtrOf(held[i])
  {
    assert held[i..] == [held[i]] + held[i + 1..];
    PtrsAppend([held[i]], held[i + 1..]);
    PtrsOne(held[i]);
  }

  /** A call, with the frame's slots `held` registered: they are all that it owns. */
  method Call<S(!new)>(rt: Runtime, cb: Callback<S>, st: S, args: seq<Word>, held: seq<Word>,
      ghost m: Manner<S>, ghost keep: multiset<Ref>, ghost vals: seq<Val>) returns (reply: Reply, st': S)
    requires Honest(cb, m) && rt.Valid() && rt.owned == keep + Ptrs(held) + Ptrs(args)
    requires AllMean(rt.cells, args, vals)
    modifies rt
    ensures rt.Valid() && st' == m.next(st, vals) && (reply.Exited? <==> m.exits(st, vals))
    ensures match reply
      case Exited => rt.owned == keep && AllKept(old(rt.cells), rt.cells, keep)
      case Returned(value) =>
        && rt.owned == keep + Ptrs(held) + PtrOf(value) && AllKept(old(rt.cells), rt.cells, keep + Ptrs(held))
        && value != Null && Means(rt.cells, value, m.value(st, vals))
  {
    ghost var h := rt.cells;
    assert CallOk(cb, m, st, h, keep + Ptrs(held), args, vals);
    var answer := cb(st, rt.cells, args);
    reply, st' := answer.0, answer.1;
    rt.cells, rt.owned := answer.2, keep + Ptrs(held) + Gained(reply);
    if reply.Exited? {
      ghost var h1 := rt.cells;
      Unwind(rt, held, keep);
      FewerKept(h, h1, keep + Ptrs(held), keep);
      KeptSteps(h, h1, rt.cells, keep, keep);
    }
  }

  lemma FewerKept(h: Heap, h': Heap, more: multiset<Ref>, keep: multiset<Ref>)
    requires AllKept(h, h', more) && keep <= more
    ensures AllKept(h, h', keep)
  {
  }

  /** `kai_cons` onto one of the frame's slots. */
  method Prepend(rt: Runtime, x: Word, held: seq<Word>, i: nat, ghost keep: multiset<Ref>, ghost xv: Val, ghost tv: Val)
    returns (held': seq<Word>)
    requires rt.Valid() && i < |held| && rt.owned == keep + Ptrs(held) + PtrOf(x)
    requires Means(rt.cells, x, xv) && Means(rt.cells, held[i], tv)
    modifies rt
    ensures rt.Valid() && rt.owned == keep + Ptrs(held')
    ensures |held'| == |held| && forall j :: 0 <= j < |held| && j != i ==> held'[j] == held[j]
    ensures Means(rt.cells, held'[i], Node(ConsCell, [xv, tv]))
    ensures AllKept(old(rt.cells), rt.cells, old(rt.owned))
  {
    var slots := [x, held[i]];
    EmptySlot(keep, held, i, x, slots);
    var r := NewCons(rt, slots, keep + Ptrs(held[i := Null]), rt.owned, xv, tv);
    SlotRefilled(keep, held, i, r);
    held' := held[i := Ptr(r)];
  }

  lemma SlotRefilled(keep: multiset<Ref>, held: seq<Word>, i: nat, r: Ref)
    requires i < |held|
    ensures keep + Ptrs(held[i := Null]) + multiset{r} == keep + Ptrs(held[i := Ptr(r)])
  {
    var empty := held[i := Null];
    FillSlot(keep, empty, i, Ptr(r), multiset{});
    assert empty[i := Ptr(r)] == held[i := Ptr(r)];
  }

  method NewCons(rt: Runtime, slots: seq<Word>, ghost keep: multiset<Ref>, ghost before: multiset<Ref>, ghost xv: Val, ghost tv: Val)
    returns (r: Ref)
    requires rt.Valid() && |slots| == 2 && rt.owned == keep + Ptrs(slots)
    requires Means(rt.cells, slots[0], xv) && Means(rt.cells, slots[1], tv)
    modifies rt
    ensures rt.Valid() && rt.owned == keep + multiset{r} && Means(rt.cells, Ptr(r), Node(ConsCell, [xv, tv]))
    ensures AllKept(old(rt.cells), rt.cells, before)
  {
    ghost var h := rt.cells;
    r := rt.Alloc(ConsCell, slots, keep);
    ConsMeans(h, slots, xv, tv);
    AddsAllKept(h, rt.cells);
  }

  lemma ConsMeans(h: Heap, slots: seq<Word>, xv: Val, tv: Val)
    requires |slots| == 2 && Means(h, slots[0], xv) && Means(h, slots[1], tv)
    ensures Means(h + [Cell(1, ConsCell, slots)], Ptr(|h|), Node(ConsCell, [xv, tv]))
  {
    AddsKept(h, h + [Cell(1, ConsCell, slots)], slots[0], xv);
    AddsKept(h, h + [Cell(1, ConsCell, slots)], slots[1], tv);
  }

  /** Taking what a slot holds out of it, beside `x`. */
  lemma EmptySlot(keep: multiset<Ref>, held: seq<Word>, i: nat, x: Word, slots: seq<Word>)
    requires i < |held| && slots == [x, held[i]]
    ensures keep + Ptrs(held) + PtrOf(x) == keep + Ptrs(held[i := Null]) + Ptrs(slots)
  {
    SlotBooks(held, i);
    PtrsTwo(x, held[i]);
  }

  /** Putting `w` into an empty slot. */
  lemma FillSlot(keep: multiset<Ref>, held: seq<Word>, i: nat, w: Word, extra: multiset<Ref>)
    requires i < |held| && held[i] == Null
    ensures keep + Ptrs(held[i := w]) + extra == keep + Ptrs(held) + PtrOf(w) + extra
    ensures extra == multiset{} ==> keep + Ptrs(held[i := w]) == keep + Ptrs(held) + PtrOf(w)
  {
    PtrsSwap(held, i, w);
    assert Ptrs(held[i := w]) == Ptrs(held[i := w]) + multiset{};
  }

  lemma SlotBooks(held: seq<Word>, i: nat)
    requires i < |held|
    ensures Ptrs(held) == Ptrs(held[i := Null]) + PtrOf(held[i])
  {
    PtrsSwap(held, i, Null);
    assert Ptrs(held) == Ptrs(held) + multiset{};
  }

  // ---------- lists of values ----------

  /** The empty list is a static value without a count; so are unit and the two Bools. */
  const Nil := Raw(0)
  const Unit := Raw(0)
  const True := Raw(1)

  function ListVal(vs: seq<Val>): Val {
    if vs == [] then Unboxed(0) else Node(ConsCell, [vs[0], ListVal(vs[1..])])
  }

  /** The list that has the last of `vs` in front. */
  function Stack(vs: seq<Val>): Val {
    if vs == [] then Unboxed(0) else Node(ConsCell, [vs[|vs| - 1], Stack(vs[..|vs| - 1])])
  }

  lemma StackPush(vs: seq<Val>, v: Val)
    ensures Stack(vs + [v]) == Node(ConsCell, [v, Stack(vs)])
  {
    assert (vs + [v])[..|vs|] == vs;
  }

  function Rev<T>(s: seq<T>): seq<T> {
    if s == [] then [] else [s[|s| - 1]] + Rev(s[..|s| - 1])
  }

  lemma {:induction false} StackElements(vs: seq<Val>)
    requires Present(vs)
    ensures Elements(Stack(vs)) == Rev(vs) && Stack(vs) == ListVal(Rev(vs)) && Present(Rev(vs))
  {
    if vs != [] { StackElements(vs[..|vs| - 1]); }
  }

  lemma {:induction false} RevTwice<T>(s: seq<T>)
    ensures Rev(Rev(s)) == s && multiset(Rev(s)) == multiset(s)
  {
    if s != [] {
      RevTwice(s[..|s| - 1]);
      RevFront(s[|s| - 1], Rev(s[..|s| - 1]));
      assert s == s[..|s| - 1] + [s[|s| - 1]];
    }
  }

  lemma {:induction false} RevFront<T>(x: T, s: seq<T>)
    ensures Rev([x] + s) == Rev(s) + [x]
  {
    if s != [] {
      RevFront(x, s[..|s| - 1]);
      assert ([x] + s)[..|s|] == [x] + s[..|s| - 1];
    } else {
      assert ([x] + s)[..0] == [];
    }
  }

  /** No element is missing: the cursor would take it for the end. */
  ghost predicate Present(vs: seq<Val>) {
    Absent !in vs
  }

  lemma {:induction false} ListElements(vs: seq<Val>)
    requires Present(vs)
    ensures Elements(ListVal(vs)) == vs
  {
    if vs != [] { ListElements(vs[1..]); }
  }

  /** Between two elements: slot `i` holds `acc`. */
  ghost predicate Gathering(h0: Heap, h: Heap, owned: multiset<Ref>, keep: multiset<Ref>, held: seq<Word>, extra: multiset<Ref>, i: nat,
      xv: Val, at: Word, av: Val, acc: Val)
  {
    Walking(h0, h, owned, keep, held, extra, xv, at, av) && 0 < i < |held| && Means(h, held[i], acc)
  }

  /** Puts an element in front of the list in slot `i`. */
  method Collect(rt: Runtime, x: Word, held: seq<Word>, i: nat, ghost h0: Heap, ghost keep: multiset<Ref>,
      ghost xv: Val, ghost at: Word, ghost av: Val, ghost acc: Val, ghost v: Val) returns (held': seq<Word>)
    requires Gathering(h0, rt.cells, rt.owned, keep, held, PtrOf(x), i, xv, at, av, acc) && Means(rt.cells, x, v)
    modifies rt
    ensures Gathering(h0, rt.cells, rt.owned, keep, held', multiset{}, i, xv, at, av, Node(ConsCell, [v, acc]))
    ensures |held'| == |held| && forall j :: 0 <= j < |held| && j != i ==> held'[j] == held[j]
  {
    ghost var h := rt.cells;
    if held[0].Ptr? { PtrsUpdate(held, 0, Null, held[0].ref); }
    held' := Prepend(rt, x, held, i, keep, v, acc);
    assert Kept(h, rt.cells, held[0], xv);
    WithinKept(h, rt.cells, held[0], xv, at, av);
    KeptSteps(h0, h, rt.cells, keep, keep);
  }

  lemma TwoHeld(keep: multiset<Ref>, held: seq<Word>)
    requires |held| == 2
    ensures keep + Ptrs(held) == keep + PtrOf(held[0]) + PtrOf(held[1]) == (keep + PtrOf(held[1])) + PtrOf(held[0])
  {
    PtrsTwo(held[0], held[1]);
    assert held == [held[0], held[1]];
  }

  /** Moves the elements of the list `held[0]` in front of the list `held[1]`. */
  method Pour(rt: Runtime, start: seq<Word>, ghost keep: multiset<Ref>, ghost xv: Val, ghost before: seq<Val>) returns (held: seq<Word>)
    requires rt.Valid() && |start| == 2 && rt.owned == keep + Ptrs(start) && Present(before)
    requires Means(rt.cells, start[0], xv) && Means(rt.cells, start[1], Stack(before))
    modifies rt
    ensures rt.Valid() && |held| == 2 && held[0] == start[0] && rt.owned == keep + Ptrs(held)
    ensures Means(rt.cells, held[1], Stack(before + Elements(xv))) && Present(before + Elements(xv))
    ensures AllKept(old(rt.cells), rt.cells, keep)
  {
    held := start;
    ghost var h0, done, av, v := rt.cells, before, xv, Absent;
    NothingKept(h0, keep);
    var x, at;
    x, at, v, av := Next(rt, held[0], h0, keep, held, xv, xv);
    while x != Null
      invariant |held| == 2 && held[0] == start[0] && Present(done)
      invariant Gathering(h0, rt.cells, rt.owned, keep, held, PtrOf(x), 1, xv, at, av, Stack(done))
      invariant done + Ahead(x, v, av) == before + Elements(xv) && (x != Null ==> v != Absent && Means(rt.cells, x, v))
      decreases x != Null, av
    {
      StackPush(done, v);
      Advance(done, v, av);
      held := Collect(rt, x, held, 1, h0, keep, xv, at, av, Stack(done), v);
      done := done + [v];
      x, at, v, av := Next(rt, at, h0, keep, held, xv, av);
    }
    assert done == before + Elements(xv);
  }

  /** Reverses a list onto another one. Both are consumed. */
  method ReverseOnto(rt: Runtime, xs: Word, acc: Word, ghost keep: multiset<Ref>, ghost xv: Val, ghost before: seq<Val>) returns (r: Word)
    requires rt.Valid() && rt.owned == keep + PtrOf(xs) + PtrOf(acc) && Present(before)
    requires Means(rt.cells, xs, xv) && Means(rt.cells, acc, Stack(before))
    modifies rt
    ensures rt.Valid() && rt.owned == keep + PtrOf(r) && AllKept(old(rt.cells), rt.cells, keep)
    ensures Means(rt.cells, r, Stack(before + Elements(xv))) && Present(before + Elements(xv))
  {
    ghost var h := rt.cells;
    var held := [xs, acc];
    TwoHeld(keep, held);
    held := Pour(rt, held, keep, xv, before);
    r := held[1];
    TwoHeld(keep, held);
    ghost var h1 := rt.cells;
    DropWord(rt, xs, keep + PtrOf(r));
    assert Kept(h1, rt.cells, r, Stack(before + Elements(xv)));
    KeptSteps(h, h1, rt.cells, keep, keep + PtrOf(r));
  }

  lemma StackReversed(vs: seq<Val>)
    requires Present(vs)
    ensures Stack([] + Elements(Stack(vs))) == ListVal(vs)
  {
    StackElements(vs);
    StackElements(Rev(vs));
    RevTwice(vs);
    assert [] + Elements(Stack(vs)) == Rev(vs);
  }

  /** Reverses a list, which it consumes. */
  method Reverse(rt: Runtime, xs: Word, ghost keep: multiset<Ref>, ghost done: seq<Val>) returns (r: Word)
    requires rt.Valid() && rt.owned == keep + PtrOf(xs) && Means(rt.cells, xs, Stack(done)) && Present(done)
    modifies rt
    ensures rt.Valid() && rt.owned == keep + PtrOf(r) && AllKept(old(rt.cells), rt.cells, keep)
    ensures Means(rt.cells, r, ListVal(done))
  {
    StackReversed(done);
    r := ReverseOnto(rt, xs, Nil, keep, Stack(done), []);
  }

  // ---------- the functions ----------

  /** What a closure answers to the elements, one after the other, until it exits. */
  datatype Called<S> = Called(replies: seq<Val>, exited: bool, after: S)

  function Calls<S>(m: Manner<S>, st: S, vs: seq<Val>): Called<S> {
    if vs == [] then Called([], false, st)
    else if m.exits(st, [vs[0]]) then Called([], true, m.next(st, [vs[0]]))
    else Onto([m.value(st, [vs[0]])], Calls(m, m.next(st, [vs[0]]), vs[1..]))
  }

  function Onto<S>(ys: seq<Val>, c: Called<S>): Called<S> {
    c.(replies := ys + c.replies)
  }

  lemma CallNext<S>(m: Manner<S>, st: S, ys: seq<Val>, v: Val, rest: seq<Val>)
    ensures Onto(ys, Calls(m, st, [v] + rest)) ==
      if m.exits(st, [v]) then Called(ys, true, m.next(st, [v]))
      else Onto(ys + [m.value(st, [v])], Calls(m, m.next(st, [v]), rest))
  {
    assert ([v] + rest)[1..] == rest;
    assert ys + [] == ys;
    var c := Calls(m, m.next(st, [v]), rest);
    assert ys + ([m.value(st, [v])] + c.replies) == (ys + [m.value(st, [v])]) + c.replies;
  }

  lemma CallsOver<S>(m: Manner<S>, st: S, ys: seq<Val>)
    ensures Onto(ys, Calls(m, st, [])) == Called(ys, false, st)
  {
  }

  /** How a list function ends: with a value that means `v` and is all that the caller gains, or
      with nothing. Either way its arguments are gone and the caller's values are as they were. */
  ghost predicate Ended(h0: Heap, h: Heap, owned: multiset<Ref>, keep: multiset<Ref>, reply: Reply, v: Val) {
    && Counted(h, owned) && owned == keep + Gained(reply) && AllKept(h0, h, keep)
    && (reply.Returned? ==> Means(h, reply.value, v))
  }

  /** The same with a list, which has the elements `vs`. */
  ghost predicate EndedList(h0: Heap, h: Heap, owned: multiset<Ref>, keep: multiset<Ref>, reply: Reply, vs: seq<Val>) {
    Ended(h0, h, owned, keep, reply, ListVal(vs)) && (reply.Returned? ==> Elements(ListVal(vs)) == vs)
  }

  /** The calls were those of `c`, and no others; an exit is the exit of the last one. */
  predicate Answers<S(==)>(reply: Reply, st: S, c: Called<S>) {
    (reply.Exited? <==> c.exited) && st == c.after
  }

  /** A call from inside the loop. An exit ends the function. */
  method CallStep<S(!new)>(rt: Runtime, cb: Callback<S>, st: S, args: seq<Word>, held: seq<Word>, ghost m: Manner<S>, ghost vals: seq<Val>, ghost y: Val,
      ghost h0: Heap, ghost keep: multiset<Ref>, ghost xv: Val, ghost at: Word, ghost av: Val) returns (reply: Reply, st': S)
    requires Honest(cb, m) && y == m.value(st, vals) && AllMean(rt.cells, args, vals)
    requires Walking(h0, rt.cells, rt.owned, keep, held, Ptrs(args), xv, at, av)
    modifies rt
    ensures st' == m.next(st, vals) && (reply.Exited? <==> m.exits(st, vals))
    ensures reply.Exited? ==> Ended(h0, rt.cells, rt.owned, keep, reply, Absent)
    ensures reply.Returned? ==>
      && Walking(h0, rt.cells, rt.owned, keep, held, PtrOf(reply.value), xv, at, av)
      && AllKept(old(rt.cells), rt.cells, keep + Ptrs(held))
      && Means(rt.cells, reply.value, y) && y != Absent
  {
    ghost var h := rt.cells;
    reply, st' := Call(rt, cb, st, args, held, m, keep, vals);
    if reply.Exited? {
      KeptSteps(h0, h, rt.cells, keep, keep);
    } else {
      WalkOn(h0, h, keep + Ptrs(held) + Ptrs(args), keep, held, Ptrs(args), xv, at, av, rt.cells, rt.owned, PtrOf(reply.value));
    }
  }

  /** Three slots, or four of which the last is empty. */
  predicate ThreeUsed(held: seq<Word>) {
    |held| == 3 || (|held| == 4 && held[3] == Null)
  }

  /** At the head of a loop that makes a list: `x` is the element at hand, and what has been made
      lies, the last element first, in slot 2. */
  ghost predicate AtElement(h0: Heap, h: Heap, owned: multiset<Ref>, keep: multiset<Ref>, held: seq<Word>, x: Word, v: Val,
      xv: Val, at: Word, av: Val, done: seq<Val>)
  {
    && ThreeUsed(held) && Present(done)
    && Gathering(h0, h, owned, keep, held, PtrOf(x), 2, xv, at, av, Stack(done))
    && (x != Null ==> v != Absent && Means(h, x, v))
  }

  /** The first element. */
  method Start(rt: Runtime, held: seq<Word>, ghost keep: multiset<Ref>, ghost xv: Val, ghost acc: Val)
    returns (x: Word, at: Word, ghost v: Val, ghost av: Val)
    requires rt.Valid() && rt.owned == keep + Ptrs(held) && |held| > 2
    requires Means(rt.cells, held[0], xv) && Means(rt.cells, held[2], acc)
    modifies rt
    ensures Gathering(old(rt.cells), rt.cells, rt.owned, keep, held, PtrOf(x), 2, xv, at, av, acc)
    ensures Ahead(x, v, av) == Elements(xv) && (x != Null ==> v != Absent && Means(rt.cells, x, v))
  {
    NothingKept(rt.cells, keep);
    x, at, v, av := Next(rt, held[0], rt.cells, keep, held, xv, xv);
  }

  /** The first element, with no list made yet. */
  method StartList(rt: Runtime, held: seq<Word>, ghost keep: multiset<Ref>, ghost xv: Val)
    returns (x: Word, at: Word, ghost v: Val, ghost av: Val)
    requires rt.Valid() && rt.owned == keep + Ptrs(held) && ThreeUsed(held)
    requires Means(rt.cells, held[0], xv) && held[2] == Nil
    modifies rt
    ensures AtElement(old(rt.cells), rt.cells, rt.owned, keep, held, x, v, xv, at, av, [])
    ensures Ahead(x, v, av) == Elements(xv)
  {
    x, at, v, av := Start(rt, held, keep, xv, Stack([]));
  }

  lemma Unanswered<S>(c: Called<S>)
    ensures Onto([], c) == c
  {
  }

  method Map<S(!new)>(rt: Runtime, cb: Callback<S>, start: S, xs: Word, fn: Word, ghost m: Manner<S>, ghost keep: multiset<Ref>, ghost xv: Val)
    returns (reply: Reply, st: S)
    requires Honest(cb, m) && rt.Valid() && rt.owned == keep + PtrOf(xs) + PtrOf(fn) && Means(rt.cells, xs, xv)
    modifies rt
    ensures var c := Calls(m, start, Elements(xv));
      Answers(reply, st, c) && EndedList(old(rt.cells), rt.cells, rt.owned, keep, reply, c.replies)
  {
    var held := [xs, fn, Nil];
    ThreeHeld(keep, held);
    ghost var h0, ys, av, v := rt.cells, [], xv, Absent;
    st := start;
    var x, at := xs, xs;
    x, at, v, av := StartList(rt, held, keep, xv);
    Unanswered(Calls(m, start, Elements(xv)));
    while x != Null
      invariant |held| == 3 && AtElement(h0, rt.cells, rt.owned, keep, held, x, v, xv, at, av, ys)
      invariant Onto(ys, Calls(m, st, Ahead(x, v, av))) == Calls(m, start, Elements(xv))
      decreases x != Null, av
    {
      CallNext(m, st, ys, v, Elements(av));
      ghost var y := m.value(st, [v]);
      reply, st, held, x, at, v, av := MapTurn(rt, cb, st, x, held, m, v, y, h0, keep, xv, at, av, ys);
      if reply.Exited? { return; }
      ys := ys + [y];
    }
    CallsOver(m, st, ys);
    reply := Finish(rt, held, h0, keep, xv, at, v, av, ys);
  }

  method MapTurn<S(!new)>(rt: Runtime, cb: Callback<S>, st: S, x: Word, held: seq<Word>, ghost m: Manner<S>, ghost v: Val, ghost y: Val,
      ghost h0: Heap, ghost keep: multiset<Ref>, ghost xv: Val, at: Word, ghost av: Val, ghost done: seq<Val>)
    returns (reply: Reply, st': S, held': seq<Word>, x': Word, at': Word, ghost v': Val, ghost av': Val)
    requires Honest(cb, m) && |held| == 3 && x != Null && y == m.value(st, [v])
    requires AtElement(h0, rt.cells, rt.owned, keep, held, x, v, xv, at, av, done)
    modifies rt
    ensures st' == m.next(st, [v]) && (reply.Exited? <==> m.exits(st, [v]))
    ensures reply.Exited? ==> Ended(h0, rt.cells, rt.owned, keep, reply, Absent)
    ensures reply.Returned? ==>
      && |held'| == 3 && AtElement(h0, rt.cells, rt.owned, keep, held', x', v', xv, at', av', done + [y])
      && Ahead(x', v', av') == Elements(av) && (x' != Null ==> av' < av)
  {
    StackPush(done, y);
    reply, st', held', x', at', v', av' := MapOne(rt, cb, st, x, held, m, v, y, h0, keep, xv, at, av, Stack(done));
  }

  method MapOne<S(!new)>(rt: Runtime, cb: Callback<S>, st: S, x: Word, held: seq<Word>, ghost m: Manner<S>, ghost v: Val, ghost y: Val,
      ghost h0: Heap, ghost keep: multiset<Ref>, ghost xv: Val, at: Word, ghost av: Val, ghost acc: Val)
    returns (reply: Reply, st': S, held': seq<Word>, x': Word, at': Word, ghost v': Val, ghost av': Val)
    requires Honest(cb, m) && y == m.value(st, [v]) && |held| == 3 && Means(rt.cells, x, v)
    requires Gathering(h0, rt.cells, rt.owned, keep, held, PtrOf(x), 2, xv, at, av, acc)
    modifies rt
    ensures st' == m.next(st, [v]) && (reply.Exited? <==> m.exits(st, [v]))
    ensures reply.Exited? ==> Ended(h0, rt.cells, rt.owned, keep, reply, Absent)
    ensures reply.Returned? ==>
      && |held'| == 3 && y != Absent
      && Gathering(h0, rt.cells, rt.owned, keep, held', PtrOf(x'), 2, xv, at', av', Node(ConsCell, [y, acc]))
      && Ahead(x', v', av') == Elements(av) && (x' != Null ==> av' < av && v' != Absent && Means(rt.cells, x', v'))
  {
    x', at', v', av' := x, at, v, av;
    ghost var h := rt.cells;
    var args := [x];
    ghost var vals := [v];
    PtrsOne(x);
    held' := held;
    reply, st' := CallStep(rt, cb, st, args, held, m, vals, y, h0, keep, xv, at, av);
    if reply.Returned? {
      HeldMeans(h, rt.cells, keep, held, 2, acc);
      held', x', at', v', av' := CollectNext(rt, reply.value, held, h0, keep, xv, at, av, acc, y);
    }
  }

  method CollectNext(rt: Runtime, y: Word, held: seq<Word>, ghost h0: Heap, ghost keep: multiset<Ref>, ghost xv: Val,
      at: Word, ghost av: Val, ghost acc: Val, ghost yv: Val)
    returns (held': seq<Word>, x': Word, at': Word, ghost v': Val, ghost av': Val)
    requires |held| == 3 && Means(rt.cells, y, yv)
    requires Gathering(h0, rt.cells, rt.owned, keep, held, PtrOf(y), 2, xv, at, av, acc)
    modifies rt
    ensures |held'| == 3 && Gathering(h0, rt.cells, rt.owned, keep, held', PtrOf(x'), 2, xv, at', av', Node(ConsCell, [yv, acc]))
    ensures Ahead(x', v', av') == Elements(av) && (x' != Null ==> av' < av && v' != Absent && Means(rt.cells, x', v'))
  {
    held' := Collect(rt, y, held, 2, h0, keep, xv, at, av, acc, yv);
    ghost var h := rt.cells;
    x', at', v', av' := Next(rt, at, h0, keep, held', xv, av);
    StillGathered(h0, h, rt.cells, rt.owned, keep, held', PtrOf(x'), xv, at', av', Node(ConsCell, [yv, acc]));
  }

  lemma StillGathered(h0: Heap, h: Heap, h': Heap, owned': multiset<Ref>, keep: multiset<Ref>, held: seq<Word>, extra: multiset<Ref>,
      xv: Val, at: Word, av: Val, acc: Val)
    requires |held| > 2 && Walking(h0, h', owned', keep, held, extra, xv, at, av) && Grows(h, h') && Means(h, held[2], acc)
    ensures Gathering(h0, h', owned', keep, held, extra, 2, xv, at, av, acc)
  {
  }

  lemma ThreeHeld(keep: multiset<Ref>, held: seq<Word>)
    requires |held| == 3 || (|held| == 4 && held[3] == Null)
    ensures keep + Ptrs(held) == keep + PtrOf(held[0]) + PtrOf(held[1]) + PtrOf(held[2])
  {
    if |held| == 4 {
      assert held == held[..3] + [held[3]];
      PtrsAppend(held[..3], [held[3]]);
      PtrsOne(held[3]);
      ThreeHeld(keep, held[..3]);
    } else {
      assert held == held[..2] + [held[2]];
      PtrsAppend(held[..2], [held[2]]);
      PtrsOne(held[2]);
      TwoHeld(keep, held[..2]);
    }
  }

  /** After the loop: the made list is reversed, and the arguments are given up. */
  method Finish(rt: Runtime, held: seq<Word>, ghost h0: Heap, ghost keep: multiset<Ref>, ghost xv: Val, ghost at: Word,
      ghost v: Val, ghost av: Val, ghost done: seq<Val>)
    returns (reply: Reply)
    requires AtElement(h0, rt.cells, rt.owned, keep, held, Null, v, xv, at, av, done)
    modifies rt
    ensures EndedList(h0, rt.cells, rt.owned, keep, reply, done) && reply.Returned?
  {
    ListElements(done);
    ThreeHeld(keep, held);
    assert rt.owned == keep + Ptrs(held);
    var r := MadeList(rt, held, h0, keep, done);
    reply := Returned(r);
  }

  method MadeList(rt: Runtime, held: seq<Word>, ghost h0: Heap, ghost keep: multiset<Ref>, ghost done: seq<Val>) returns (r: Word)
    requires rt.Valid() && rt.owned == keep + Ptrs(held) && AllKept(h0, rt.cells, keep) && ThreeUsed(held)
    requires Means(rt.cells, held[2], Stack(done)) && Present(done)
    modifies rt
    ensures rt.Valid() && rt.owned == keep + PtrOf(r) && AllKept(h0, rt.cells, keep)
    ensures Means(rt.cells, r, ListVal(done))
  {
    ThreeHeld(keep, held);
    ghost var h1 := rt.cells;
    r := Reverse(rt, held[2], keep + PtrOf(held[0]) + PtrOf(held[1]), done);
    KeptSteps(h0, h1, rt.cells, keep, keep + PtrOf(held[0]) + PtrOf(held[1]));
    DropTwo(rt, held[0], held[1], r, h0, keep, ListVal(done));
  }

  /** Gives up two references, and keeps the result. */
  method DropTwo(rt: Runtime, a: Word, b: Word, r: Word, ghost h0: Heap, ghost keep: multiset<Ref>, ghost v: Val)
    requires rt.Valid() && rt.owned == keep + PtrOf(a) + PtrOf(b) + PtrOf(r)
    requires AllKept(h0, rt.cells, keep) && Means(rt.cells, r, v)
    modifies rt
    ensures rt.Valid() && rt.owned == keep + PtrOf(r) && AllKept(h0, rt.cells, keep) && Means(rt.cells, r, v)
  {
    DropOne(rt, a, r, h0, keep, keep + PtrOf(b), v);
    DropOne(rt, b, r, h0, keep, keep, v);
  }

  method DropOne(rt: Runtime, a: Word, r: Word, ghost h0: Heap, ghost keep: multiset<Ref>, ghost more: multiset<Ref>, ghost v: Val)
    requires rt.Valid() && rt.owned == more + PtrOf(r) + PtrOf(a) && keep <= more
    requires AllKept(h0, rt.cells, keep) && Means(rt.cells, r, v)
    modifies rt
    ensures rt.Valid() && rt.owned == more + PtrOf(r) && AllKept(h0, rt.cells, keep) && Means(rt.cells, r, v)
  {
    ghost var h := rt.cells;
    DropWord(rt, a, more + PtrOf(r));
    assert Kept(h, rt.cells, r, v);
    KeptSteps(h0, h, rt.cells, keep, more + PtrOf(r));
  }

  /** The lists that were answered, one after the other. */
  function Flat(ys: seq<Val>): seq<Val> {
    if ys == [] then [] else Flat(ys[..|ys| - 1]) + Elements(ys[|ys| - 1])
  }

  lemma FlatMore(ys: seq<Val>, y: Val)
    ensures Flat(ys + [y]) == Flat(ys) + Elements(y)
  {
    assert (ys + [y])[..|ys|] == ys;
  }

  method FlatMap<S(!new)>(rt: Runtime, cb: Callback<S>, start: S, xs: Word, fn: Word, ghost m: Manner<S>, ghost keep: multiset<Ref>, ghost xv: Val)
    returns (reply: Reply, st: S)
    requires Honest(cb, m) && rt.Valid() && rt.owned == keep + PtrOf(xs) + PtrOf(fn) && Means(rt.cells, xs, xv)
    modifies rt
    ensures var c := Calls(m, start, Elements(xv));
      Answers(reply, st, c) && EndedList(old(rt.cells), rt.cells, rt.owned, keep, reply, Flat(c.replies))
  {
    var held := [xs, fn, Nil];
    ThreeHeld(keep, held);
    ghost var h0, ys, av, v := rt.cells, [], xv, Absent;
    st := start;
    var x, at := xs, xs;
    x, at, v, av := StartList(rt, held, keep, xv);
    Unanswered(Calls(m, start, Elements(xv)));
    while x != Null
      invariant |held| == 3 && AtElement(h0, rt.cells, rt.owned, keep, held, x, v, xv, at, av, Flat(ys))
      invariant Onto(ys, Calls(m, st, Ahead(x, v, av))) == Calls(m, start, Elements(xv))
      decreases x != Null, av
    {
      CallNext(m, st, ys, v, Elements(av));
      ghost var y := m.value(st, [v]);
      reply, st, held, x, at, v, av := FlatTurn(rt, cb, st, x, held, m, v, y, h0, keep, xv, at, av, Flat(ys));
      if reply.Exited? { return; }
      FlatMore(ys, y);
      ys := ys + [y];
    }
    CallsOver(m, st, ys);
    reply := Finish(rt, held, h0, keep, xv, at, v, av, Flat(ys));
  }

  method FlatTurn<S(!new)>(rt: Runtime, cb: Callback<S>, st: S, x: Word, held: seq<Word>, ghost m: Manner<S>, ghost v: Val, ghost y: Val,
      ghost h0: Heap, ghost keep: multiset<Ref>, ghost xv: Val, at: Word, ghost av: Val, ghost done: seq<Val>)
    returns (reply: Reply, st': S, held': seq<Word>, x': Word, at': Word, ghost v': Val, ghost av': Val)
    requires Honest(cb, m) && |held| == 3 && x != Null && y == m.value(st, [v])
    requires AtElement(h0, rt.cells, rt.owned, keep, held, x, v, xv, at, av, done)
    modifies rt
    ensures st' == m.next(st, [v]) && (reply.Exited? <==> m.exits(st, [v]))
    ensures reply.Exited? ==> Ended(h0, rt.cells, rt.owned, keep, reply, Absent)
    ensures reply.Returned? ==>
      && |held'| == 3 && AtElement(h0, rt.cells, rt.owned, keep, held', x', v', xv, at', av', done + Elements(y))
      && Ahead(x', v', av') == Elements(av) && (x' != Null ==> av' < av)
  {
    reply, st', held', x', at', v', av' := FlatOne(rt, cb, st, x, held, m, v, y, h0, keep, xv, at, av, done);
  }

  method FlatOne<S(!new)>(rt: Runtime, cb: Callback<S>, st: S, x: Word, held: seq<Word>, ghost m: Manner<S>, ghost v: Val, ghost y: Val,
      ghost h0: Heap, ghost keep: multiset<Ref>, ghost xv: Val, at: Word, ghost av: Val, ghost done: seq<Val>)
    returns (reply: Reply, st': S, held': seq<Word>, x': Word, at': Word, ghost v': Val, ghost av': Val)
    requires Honest(cb, m) && y == m.value(st, [v]) && |held| == 3 && Means(rt.cells, x, v) && Present(done)
    requires Gathering(h0, rt.cells, rt.owned, keep, held, PtrOf(x), 2, xv, at, av, Stack(done))
    modifies rt
    ensures st' == m.next(st, [v]) && (reply.Exited? <==> m.exits(st, [v]))
    ensures reply.Exited? ==> Ended(h0, rt.cells, rt.owned, keep, reply, Absent)
    ensures reply.Returned? ==>
      && |held'| == 3 && Present(done + Elements(y))
      && Gathering(h0, rt.cells, rt.owned, keep, held', PtrOf(x'), 2, xv, at', av', Stack(done + Elements(y)))
      && Ahead(x', v', av') == Elements(av) && (x' != Null ==> av' < av && v' != Absent && Means(rt.cells, x', v'))
  {
    x', at', v', av' := x, at, v, av;
    ghost var h := rt.cells;
    var args := [x];
    ghost var vals := [v];
    PtrsOne(x);
    held' := held;
    reply, st' := CallStep(rt, cb, st, args, held, m, vals, y, h0, keep, xv, at, av);
    if reply.Returned? {
      HeldMeans(h, rt.cells, keep, held, 2, Stack(done));
      held' := PourPiece(rt, reply.value, held, h0, keep, xv, at, av, y, done);
      x', at', v', av' := Next(rt, at, h0, keep, held', xv, av);
    }
  }

  /** Puts the elements of `piece` in front of the list in slot 2. */
  method PourPiece(rt: Runtime, piece: Word, held: seq<Word>, ghost h0: Heap, ghost keep: multiset<Ref>,
      ghost xv: Val, ghost at: Word, ghost av: Val, ghost pv: Val, ghost done: seq<Val>) returns (held': seq<Word>)
    requires |held| == 3 && Present(done) && Means(rt.cells, piece, pv)
    requires Gathering(h0, rt.cells, rt.owned, keep, held, PtrOf(piece), 2, xv, at, av, Stack(done))
    modifies rt
    ensures |held'| == 3 && Present(done + Elements(pv))
    ensures Gathering(h0, rt.cells, rt.owned, keep, held', multiset{}, 2, xv, at, av, Stack(done + Elements(pv)))
  {
    ghost var h, owned, more := rt.cells, rt.owned, keep + PtrOf(held[0]) + PtrOf(held[1]);
    ThreeHeld(keep, held);
    assert owned == more + PtrOf(piece) + PtrOf(held[2]);
    var r := ReverseOnto(rt, piece, held[2], more, pv, done);
    held' := held[2 := r];
    ThreeHeld(keep, held');
    Rehold(h0, h, owned, keep, held, PtrOf(piece), xv, at, av, rt.cells, rt.owned, more, held', multiset{});
  }

  /** The elements to which the answer was yes. */
  function Picked(vs: seq<Val>, ys: seq<Val>): seq<Val> {
    if ys == [] || |vs| < |ys| then [] else Choose(Picked(vs[..|ys| - 1], ys[..|ys| - 1]), vs[|ys| - 1], ys[|ys| - 1])
  }

  function Choose(done: seq<Val>, v: Val, y: Val): seq<Val> {
    if y == Unboxed(1) then done + [v] else done
  }

  lemma PickedMore(vs: seq<Val>, ys: seq<Val>, v: Val, y: Val)
    requires |vs| == |ys|
    ensures Picked(vs + [v], ys + [y]) == Choose(Picked(vs, ys), v, y)
  {
    assert (ys + [y])[..|ys|] == ys && (vs + [v])[..|ys|] == vs;
  }

  /** Between two elements of a filter: `vs` are behind, and were answered `ys`. */
  ghost predicate Filtering<S>(m: Manner<S>, start: S, all: seq<Val>, st: S, vs: seq<Val>, ys: seq<Val>, ahead: seq<Val>) {
    |vs| == |ys| && vs + ahead == all && Onto(ys, Calls(m, st, ahead)) == Calls(m, start, all)
  }

  lemma FilteringBegins<S>(m: Manner<S>, start: S, all: seq<Val>)
    ensures Filtering(m, start, all, start, [], [], all)
  {
    Unanswered(Calls(m, start, all));
  }

  lemma FilteringNext<S>(m: Manner<S>, start: S, all: seq<Val>, st: S, vs: seq<Val>, ys: seq<Val>, v: Val, rest: seq<Val>)
    requires Filtering(m, start, all, st, vs, ys, [v] + rest)
    ensures m.exits(st, [v]) ==> Calls(m, start, all) == Called(ys, true, m.next(st, [v]))
    ensures !m.exits(st, [v]) ==> Filtering(m, start, all, m.next(st, [v]), vs + [v], ys + [m.value(st, [v])], rest)
    ensures Picked(vs + [v], ys + [m.value(st, [v])]) == Choose(Picked(vs, ys), v, m.value(st, [v]))
  {
    CallNext(m, st, ys, v, rest);
    PickedMore(vs, ys, v, m.value(st, [v]));
    assert vs + ([v] + rest) == (vs + [v]) + rest;
  }

  lemma FilteringEnds<S>(m: Manner<S>, start: S, all: seq<Val>, st: S, vs: seq<Val>, ys: seq<Val>)
    requires Filtering(m, start, all, st, vs, ys, [])
    ensures Calls(m, start, all) == Called(ys, false, st) && vs == all
  {
    CallsOver(m, st, ys);
  }

  method Filter<S(!new)>(rt: Runtime, cb: Callback<S>, start: S, xs: Word, pred: Word, ghost m: Manner<S>, ghost keep: multiset<Ref>, ghost xv: Val)
    returns (reply: Reply, st: S)
    requires Honest(cb, m) && rt.Valid() && rt.owned == keep + PtrOf(xs) + PtrOf(pred) && Means(rt.cells, xs, xv)
    modifies rt
    ensures var c := Calls(m, start, Elements(xv));
      Answers(reply, st, c) && EndedList(old(rt.cells), rt.cells, rt.owned, keep, reply, Picked(Elements(xv), c.replies))
  {
    var held := [xs, pred, Nil, Null];
    ThreeHeld(keep, held);
    ghost var h0, all, vs, ys, av, v := rt.cells, Elements(xv), [], [], xv, Absent;
    st := start;
    var x, at := xs, xs;
    x, at, v, av := StartList(rt, held, keep, xv);
    FilteringBegins(m, start, all);
    while x != Null
      invariant |held| == 4 && AtElement(h0, rt.cells, rt.owned, keep, held, x, v, xv, at, av, Picked(vs, ys))
      invariant Filtering(m, start, all, st, vs, ys, Ahead(x, v, av))
      decreases x != Null, av
    {
      FilteringNext(m, start, all, st, vs, ys, v, Elements(av));
      ghost var done, y := Picked(vs, ys), m.value(st, [v]);
      vs, ys := vs + [v], ys + [y];
      reply, st, held, x, at, v, av := FilterTurn(rt, cb, st, x, held, m, v, y, h0, keep, xv, at, av, done);
      if reply.Exited? { return; }
    }
    FilteringEnds(m, start, all, st, vs, ys);
    reply := Finish(rt, held, h0, keep, xv, at, v, av, Picked(vs, ys));
  }

  method FilterTurn<S(!new)>(rt: Runtime, cb: Callback<S>, st: S, x: Word, held: seq<Word>, ghost m: Manner<S>, ghost v: Val, ghost y: Val,
      ghost h0: Heap, ghost keep: multiset<Ref>, ghost xv: Val, at: Word, ghost av: Val, ghost done: seq<Val>)
    returns (reply: Reply, st': S, held': seq<Word>, x': Word, at': Word, ghost v': Val, ghost av': Val)
    requires Honest(cb, m) && |held| == 4 && x != Null && y == m.value(st, [v])
    requires AtElement(h0, rt.cells, rt.owned, keep, held, x, v, xv, at, av, done)
    modifies rt
    ensures st' == m.next(st, [v]) && (reply.Exited? <==> m.exits(st, [v]))
    ensures reply.Exited? ==> Ended(h0, rt.cells, rt.owned, keep, reply, Absent)
    ensures reply.Returned? ==>
      && |held'| == 4 && AtElement(h0, rt.cells, rt.owned, keep, held', x', v', xv, at', av', Choose(done, v, y))
      && Ahead(x', v', av') == Elements(av) && (x' != Null ==> av' < av)
  {
    StackPush(done, v);
    reply, st', held', x', at', v', av' := FilterOne(rt, cb, st, x, held, m, v, y, h0, keep, xv, at, av, Stack(done));
  }

  /** The predicate gets a reference of its own; the element waits in the fourth slot. */
  method FilterOne<S(!new)>(rt: Runtime, cb: Callback<S>, st: S, x: Word, held: seq<Word>, ghost m: Manner<S>, ghost v: Val, ghost y: Val,
      ghost h0: Heap, ghost keep: multiset<Ref>, ghost xv: Val, at: Word, ghost av: Val, ghost acc: Val)
    returns (reply: Reply, st': S, held': seq<Word>, x': Word, at': Word, ghost v': Val, ghost av': Val)
    requires Honest(cb, m) && y == m.value(st, [v]) && |held| == 4 && held[3] == Null && Means(rt.cells, x, v)
    requires Gathering(h0, rt.cells, rt.owned, keep, held, PtrOf(x), 2, xv, at, av, acc)
    modifies rt
    ensures st' == m.next(st, [v]) && (reply.Exited? <==> m.exits(st, [v]))
    ensures reply.Exited? ==> Ended(h0, rt.cells, rt.owned, keep, reply, Absent)
    ensures reply.Returned? ==>
      && |held'| == 4 && held'[3] == Null
      && Gathering(h0, rt.cells, rt.owned, keep, held', PtrOf(x'), 2, xv, at', av',
           if y == Unboxed(1) then Node(ConsCell, [v, acc]) else acc)
      && Ahead(x', v', av') == Elements(av) && (x' != Null ==> av' < av && v' != Absent && Means(rt.cells, x', v'))
  {
    x', at', v', av' := x, at, v, av;
    held' := ShareArg(rt, x, held, v, h0, keep, xv, at, av, acc);
    ghost var h := rt.cells;
    var args := [x];
    ghost var vals := [v];
    PtrsOne(x);
    reply, st' := CallStep(rt, cb, st, args, held', m, vals, y, h0, keep, xv, at, av);
    if reply.Returned? {
      HeldMeans(h, rt.cells, keep, held', 2, acc);
      HeldMeans(h, rt.cells, keep, held', 3, v);
      held' := Decide(rt, reply.value, held', y, v, h0, keep, xv, at, av, acc);
      x', at', v', av' := Next(rt, at, h0, keep, held', xv, av);
    }
  }

  method ShareArg(rt: Runtime, x: Word, held: seq<Word>, ghost v: Val,
      ghost h0: Heap, ghost keep: multiset<Ref>, ghost xv: Val, ghost at: Word, ghost av: Val, ghost acc: Val) returns (held': seq<Word>)
    requires |held| == 4 && held[3] == Null && Means(rt.cells, x, v)
    requires Gathering(h0, rt.cells, rt.owned, keep, held, PtrOf(x), 2, xv, at, av, acc)
    modifies rt
    ensures |held'| == 4 && held'[3] == x && Means(rt.cells, x, v)
    ensures Gathering(h0, rt.cells, rt.owned, keep, held', PtrOf(x), 2, xv, at, av, acc)
  {
    ghost var h, owned := rt.cells, rt.owned;
    if x.Ptr? { OwnedLives(h, owned, x.ref); }
    Share(rt, x);
    SharedKept(h, x, keep + Ptrs(held));
    held' := held[3 := x];
    FillSlot(keep, held, 3, x, PtrOf(x));
    if held[0].Ptr? { PtrsUpdate(held, 0, Null, held[0].ref); }
    Rehold(h0, h, owned, keep, held, PtrOf(x), xv, at, av, rt.cells, rt.owned, keep + Ptrs(held), held', PtrOf(x));
  }

  /** Keeps or drops the element, as the predicate said. */
  method Decide(rt: Runtime, verdict: Word, held: seq<Word>, ghost b: Val, ghost v: Val,
      ghost h0: Heap, ghost keep: multiset<Ref>, ghost xv: Val, ghost at: Word, ghost av: Val, ghost acc: Val) returns (held': seq<Word>)
    requires |held| == 4 && Means(rt.cells, held[3], v) && Means(rt.cells, verdict, b)
    requires Gathering(h0, rt.cells, rt.owned, keep, held, PtrOf(verdict), 2, xv, at, av, acc)
    modifies rt
    ensures |held'| == 4 && held'[3] == Null
    ensures Gathering(h0, rt.cells, rt.owned, keep, held', multiset{}, 2, xv, at, av,
              if b == Unboxed(1) then Node(ConsCell, [v, acc]) else acc)
  {
    var x, yes := held[3], verdict == True;
    SaysYes(rt.cells, verdict, b);
    held' := held[3 := Null];
    SlotBooks(held, 3);
    DropHeld(rt, verdict, x, held', v, h0, keep, held, xv, at, av, acc);
    held' := TakeOrDrop(rt, yes, x, held', v, h0, keep, xv, at, av, acc);
  }

  lemma SaysYes(h: Heap, verdict: Word, b: Val)
    requires Means(h, verdict, b)
    ensures verdict == True <==> b == Unboxed(1)
  {
  }

  method TakeOrDrop(rt: Runtime, yes: bool, x: Word, held: seq<Word>, ghost v: Val,
      ghost h0: Heap, ghost keep: multiset<Ref>, ghost xv: Val, ghost at: Word, ghost av: Val, ghost acc: Val) returns (held': seq<Word>)
    requires |held| == 4 && held[3] == Null && Means(rt.cells, x, v)
    requires Gathering(h0, rt.cells, rt.owned, keep, held, PtrOf(x), 2, xv, at, av, acc)
    modifies rt
    ensures |held'| == 4 && held'[3] == Null
    ensures Gathering(h0, rt.cells, rt.owned, keep, held', multiset{}, 2, xv, at, av, if yes then Node(ConsCell, [v, acc]) else acc)
  {
    held' := held;
    if yes {
      held' := Collect(rt, x, held, 2, h0, keep, xv, at, av, acc, v);
    } else {
      DropHeld(rt, x, Null, held, Absent, h0, keep, held, xv, at, av, acc);
    }
  }

  /** Drops `w` while the frame also owns `x`. */
  method DropHeld(rt: Runtime, w: Word, x: Word, held: seq<Word>, ghost v: Val,
      ghost h0: Heap, ghost keep: multiset<Ref>, ghost was: seq<Word>, ghost xv: Val, ghost at: Word, ghost av: Val, ghost acc: Val)
    requires |held| == |was| > 2 && held[0] == was[0] && held[2] == was[2] && Means(rt.cells, x, v)
    requires Ptrs(was) == Ptrs(held) + PtrOf(x)
    requires Gathering(h0, rt.cells, rt.owned, keep, was, PtrOf(w), 2, xv, at, av, acc)
    modifies rt
    ensures Gathering(h0, rt.cells, rt.owned, keep, held, PtrOf(x), 2, xv, at, av, acc) && Means(rt.cells, x, v)
  {
    ghost var h, owned, more := rt.cells, rt.owned, keep + Ptrs(held) + PtrOf(x);
    assert owned == more + PtrOf(w);
    DropWord(rt, w, more);
    if held[0].Ptr? { PtrsUpdate(held, 0, Null, held[0].ref); }
    if held[2].Ptr? { PtrsUpdate(held, 2, Null, held[2].ref); }
    assert Kept(h, rt.cells, x, v);
    assert Kept(h, rt.cells, held[2], acc);
    Rehold(h0, h, owned, keep, was, PtrOf(w), xv, at, av, rt.cells, rt.owned, more, held, PtrOf(x));
  }

  /** The calls of a fold: each gets what the one before it gave. */
  function FoldCalls<S>(m: Manner<S>, st: S, acc: Val, vs: seq<Val>): Called<S>
    decreases vs
  {
    if vs == [] then Called([acc], false, st)
    else if m.exits(st, [acc, vs[0]]) then Called([], true, m.next(st, [acc, vs[0]]))
    else FoldCalls(m, m.next(st, [acc, vs[0]]), m.value(st, [acc, vs[0]]), vs[1..])
  }

  /** The value that a fold ends with. */
  function Folded<S>(c: Called<S>): Val {
    if c.replies == [] then Absent else c.replies[0]
  }

  lemma FoldNext<S>(m: Manner<S>, st: S, acc: Val, v: Val, rest: seq<Val>)
    ensures FoldCalls(m, st, acc, [v] + rest) ==
      if m.exits(st, [acc, v]) then Called([], true, m.next(st, [acc, v]))
      else FoldCalls(m, m.next(st, [acc, v]), m.value(st, [acc, v]), rest)
  {
    assert ([v] + rest)[1..] == rest;
  }

  method Reduce<S(!new)>(rt: Runtime, cb: Callback<S>, start: S, xs: Word, init: Word, fn: Word, ghost m: Manner<S>,
      ghost keep: multiset<Ref>, ghost xv: Val, ghost iv: Val) returns (reply: Reply, st: S)
    requires Honest(cb, m) && rt.Valid() && rt.owned == keep + PtrOf(xs) + PtrOf(fn) + PtrOf(init)
    requires Means(rt.cells, xs, xv) && Means(rt.cells, init, iv)
    modifies rt
    ensures var c := FoldCalls(m, start, iv, Elements(xv));
      Answers(reply, st, c) && Ended(old(rt.cells), rt.cells, rt.owned, keep, reply, Folded(c))
  {
    var held := [xs, fn, init];
    ThreeHeld(keep, held);
    ghost var h0, acc, av, v := rt.cells, iv, xv, Absent;
    st := start;
    var x, at := xs, xs;
    x, at, v, av := Start(rt, held, keep, xv, iv);
    while x != Null
      invariant |held| == 3
      invariant Gathering(h0, rt.cells, rt.owned, keep, held, PtrOf(x), 2, xv, at, av, acc)
      invariant FoldCalls(m, st, acc, Ahead(x, v, av)) == FoldCalls(m, start, iv, Elements(xv))
      invariant x != Null ==> v != Absent && Means(rt.cells, x, v)
      decreases x != Null, av
    {
      ghost var y := m.value(st, [acc, v]);
      FoldNext(m, st, acc, v, Elements(av));
      reply, st, held, x, at, v, av := ReduceOne(rt, cb, st, x, held, m, v, y, h0, keep, xv, at, av, acc);
      if reply.Exited? { return; }
      acc := y;
    }
    ThreeHeld(keep, held);
    DropTwo(rt, held[0], held[1], held[2], h0, keep, acc);
    reply := Returned(held[2]);
  }

  /** The accumulator and the element go to the closure, so no slot shows either meanwhile. */
  method ReduceOne<S(!new)>(rt: Runtime, cb: Callback<S>, st: S, x: Word, held: seq<Word>, ghost m: Manner<S>, ghost v: Val, ghost y: Val,
      ghost h0: Heap, ghost keep: multiset<Ref>, ghost xv: Val, at: Word, ghost av: Val, ghost acc: Val)
    returns (reply: Reply, st': S, held': seq<Word>, x': Word, at': Word, ghost v': Val, ghost av': Val)
    requires Honest(cb, m) && y == m.value(st, [acc, v]) && |held| == 3 && Means(rt.cells, x, v)
    requires Gathering(h0, rt.cells, rt.owned, keep, held, PtrOf(x), 2, xv, at, av, acc)
    modifies rt
    ensures st' == m.next(st, [acc, v]) && (reply.Exited? <==> m.exits(st, [acc, v]))
    ensures reply.Exited? ==> Ended(h0, rt.cells, rt.owned, keep, reply, Absent)
    ensures reply.Returned? ==>
      && |held'| == 3 && Gathering(h0, rt.cells, rt.owned, keep, held', PtrOf(x'), 2, xv, at', av', y)
      && Ahead(x', v', av') == Elements(av) && (x' != Null ==> av' < av && v' != Absent && Means(rt.cells, x', v'))
  {
    x', at', v', av' := x, at, v, av;
    held' := held[2 := Null];
    var args := [held[2], x];
    MoveArgs(h0, rt.cells, rt.owned, keep, held, x, args, xv, at, av);
    reply, st' := CallStep(rt, cb, st, args, held', m, [acc, v], y, h0, keep, xv, at, av);
    if reply.Returned? {
      FillSlot(keep, held', 2, reply.value, multiset{});
      Refill(h0, rt.cells, rt.owned, keep, held', reply.value, xv, at, av);
      held' := held'[2 := reply.value];
      x', at', v', av' := Next(rt, at, h0, keep, held', xv, av);
    }
  }

  lemma Refill(h0: Heap, h: Heap, owned: multiset<Ref>, keep: multiset<Ref>, held: seq<Word>, w: Word, xv: Val, at: Word, av: Val)
    requires |held| == 3 && held[2] == Null && owned == keep + Ptrs(held[2 := w])
    requires Walking(h0, h, owned, keep, held, PtrOf(w), xv, at, av)
    ensures Walking(h0, h, owned, keep, held[2 := w], multiset{}, xv, at, av)
  {
    NothingKept(h, owned);
    if held[0].Ptr? { PtrsUpdate(held, 0, Null, held[0].ref); }
    Rehold(h0, h, owned, keep, held, PtrOf(w), xv, at, av, h, owned, owned, held[2 := w], multiset{});
  }

  lemma MoveArgs(h0: Heap, h: Heap, owned: multiset<Ref>, keep: multiset<Ref>, held: seq<Word>, x: Word, args: seq<Word>,
      xv: Val, at: Word, av: Val)
    requires |held| == 3 && args == [held[2], x] && Walking(h0, h, owned, keep, held, PtrOf(x), xv, at, av)
    ensures Walking(h0, h, owned, keep, held[2 := Null], Ptrs(args), xv, at, av)
  {
    SlotBooks(held, 2);
    PtrsTwo(held[2], x);
    assert keep + Ptrs(held) + PtrOf(x) == keep + Ptrs(held[2 := Null]) + Ptrs(args);
    NothingKept(h, owned);
    if held[0].Ptr? { PtrsUpdate(held, 0, Null, held[0].ref); }
    Rehold(h0, h, owned, keep, held, PtrOf(x), xv, at, av, h, owned, owned, held[2 := Null], Ptrs(args));
  }

  method Each<S(!new)>(rt: Runtime, cb: Callback<S>, start: S, xs: Word, fn: Word, ghost m: Manner<S>, ghost keep: multiset<Ref>, ghost xv: Val)
    returns (reply: Reply, st: S)
    requires Honest(cb, m) && rt.Valid() && rt.owned == keep + PtrOf(xs) + PtrOf(fn) && Means(rt.cells, xs, xv)
    modifies rt
    ensures Answers(reply, st, Calls(m, start, Elements(xv)))
    ensures Ended(old(rt.cells), rt.cells, rt.owned, keep, reply, Unboxed(0))
  {
    var held := [xs, fn];
    TwoHeld(keep, held);
    ghost var h0, ys, av, v := rt.cells, [], xv, Absent;
    NothingKept(h0, keep);
    st := start;
    var x, at := xs, xs;
    x, at, v, av := Next(rt, held[0], h0, keep, held, xv, xv);
    Unanswered(Calls(m, start, Elements(xv)));
    while x != Null
      invariant Walking(h0, rt.cells, rt.owned, keep, held, PtrOf(x), xv, at, av)
      invariant x != Null ==> v != Absent && Means(rt.cells, x, v)
      invariant Onto(ys, Calls(m, st, Ahead(x, v, av))) == Calls(m, start, Elements(xv))
      decreases x != Null, av
    {
      ghost var y := m.value(st, [v]);
      CallNext(m, st, ys, v, Elements(av));
      reply, st, x, at, v, av := EachOne(rt, cb, st, x, held, m, v, y, h0, keep, xv, at, av);
      if reply.Exited? { return; }
      ys := ys + [y];
    }
    CallsOver(m, st, ys);
    reply := EachDone(rt, held, h0, keep, xv, at, av);
  }

  /** After the loop: the arguments are given up. */
  method EachDone(rt: Runtime, held: seq<Word>, ghost h0: Heap, ghost keep: multiset<Ref>, ghost xv: Val, ghost at: Word, ghost av: Val)
    returns (reply: Reply)
    requires |held| == 2 && Walking(h0, rt.cells, rt.owned, keep, held, multiset{}, xv, at, av)
    modifies rt
    ensures Ended(h0, rt.cells, rt.owned, keep, reply, Unboxed(0)) && reply.Returned?
  {
    TwoHeld(keep, held);
    NothingMore(rt.owned, keep, held);
    DropTwo(rt, held[0], held[1], Unit, h0, keep, Unboxed(0));
    reply := Returned(Unit);
  }

  lemma NothingMore(owned: multiset<Ref>, keep: multiset<Ref>, held: seq<Word>)
    requires |held| == 2 && owned == keep + Ptrs(held) + multiset{} && keep + Ptrs(held) == keep + PtrOf(held[0]) + PtrOf(held[1])
    ensures owned == keep + PtrOf(held[0]) + PtrOf(held[1]) + PtrOf(Unit)
  {
  }

  method EachOne<S(!new)>(rt: Runtime, cb: Callback<S>, st: S, x: Word, held: seq<Word>, ghost m: Manner<S>, ghost v: Val, ghost y: Val,
      ghost h0: Heap, ghost keep: multiset<Ref>, ghost xv: Val, at: Word, ghost av: Val)
    returns (reply: Reply, st': S, x': Word, at': Word, ghost v': Val, ghost av': Val)
    requires Honest(cb, m) && y == m.value(st, [v]) && Means(rt.cells, x, v)
    requires Walking(h0, rt.cells, rt.owned, keep, held, PtrOf(x), xv, at, av)
    modifies rt
    ensures st' == m.next(st, [v]) && (reply.Exited? <==> m.exits(st, [v]))
    ensures reply.Exited? ==> Ended(h0, rt.cells, rt.owned, keep, reply, Absent)
    ensures reply.Returned? ==>
      && Walking(h0, rt.cells, rt.owned, keep, held, PtrOf(x'), xv, at', av')
      && Ahead(x', v', av') == Elements(av) && (x' != Null ==> av' < av && v' != Absent && Means(rt.cells, x', v'))
  {
    x', at', v', av' := x, at, v, av;
    var args := [x];
    ghost var vals := [v];
    PtrsOne(x);
    reply, st' := CallStep(rt, cb, st, args, held, m, vals, y, h0, keep, xv, at, av);
    if reply.Returned? {
      ghost var h := rt.cells;
      DropWord(rt, reply.value, keep + Ptrs(held));
      WalkOn(h0, h, keep + Ptrs(held) + PtrOf(reply.value), keep, held, PtrOf(reply.value), xv, at, av, rt.cells, rt.owned, multiset{});
      x', at', v', av' := Next(rt, at, h0, keep, held, xv, av);
    }
  }

  // ---------- what the closure saw ----------

  /** The state outside is a record of the calls. */
  ghost predicate Logs(m: Manner<seq<seq<Val>>>) {
    forall log, vals :: m.next(log, vals) == log + [vals]
  }

  function Alone(vs: seq<Val>): seq<seq<Val>> {
    seq(|vs|, i requires 0 <= i < |vs| => [vs[i]])
  }

  /** What the closure has seen when its turn for `vs[i]` comes. */
  function Before(log: seq<seq<Val>>, vs: seq<Val>, i: nat): seq<seq<Val>>
    requires i <= |vs|
  {
    log + Alone(vs[..i])
  }

  lemma BeforeNext(log: seq<seq<Val>>, vs: seq<Val>, i: nat)
    requires i < |vs|
    ensures Before(log + [[vs[0]]], vs[1..], i) == Before(log, vs, i + 1)
  {
    assert vs[..i + 1] == [vs[0]] + vs[1..][..i];
    assert Alone(vs[..i + 1]) == [[vs[0]]] + Alone(vs[1..][..i]);
  }

  ghost predicate AnsweredAt(m: Manner<seq<seq<Val>>>, log: seq<seq<Val>>, vs: seq<Val>, c: Called<seq<seq<Val>>>, i: nat)
    requires i < |c.replies| <= |vs|
  {
    !m.exits(Before(log, vs, i), [vs[i]]) && c.replies[i] == m.value(Before(log, vs, i), [vs[i]])
  }

  /** The closure is called on the elements in their order, once each, up to the first call that
      exits: that one is the last. */
  lemma {:induction false} CallsInOrder(m: Manner<seq<seq<Val>>>, log: seq<seq<Val>>, vs: seq<Val>)
    requires Logs(m)
    ensures var c := Calls(m, log, vs);
      && |c.replies| <= |vs| && (c.exited <==> |c.replies| < |vs|)
      && (forall i :: 0 <= i < |c.replies| ==> AnsweredAt(m, log, vs, c, i))
      && (c.exited ==> m.exits(Before(log, vs, |c.replies|), [vs[|c.replies|]]))
      && c.after == Before(log, vs, |c.replies| + if c.exited then 1 else 0)
    decreases vs
  {
    if vs != [] {
      var c, first := Calls(m, log, vs), [vs[0]];
      assert Before(log, vs, 0) == log;
      if m.exits(log, first) {
        BeforeNext(log, vs, 0);
      } else {
        var rest := Calls(m, log + [first], vs[1..]);
        CallsInOrder(m, log + [first], vs[1..]);
        forall i | 0 <= i < |c.replies| ensures AnsweredAt(m, log, vs, c, i) {
          if i > 0 {
            BeforeNext(log, vs, i - 1);
            assert AnsweredAt(m, log + [first], vs[1..], rest, i - 1);
          }
        }
        BeforeNext(log, vs, |rest.replies|);
        if rest.exited { BeforeNext(log, vs, |rest.replies| + 1); }
      }
    }
  }

  /** A function of its arguments, which always returns. */
  ghost predicate Plain<S(!new)>(m: Manner<S>, f: seq<Val> -> Val) {
    forall st, vals {:trigger m.value(st, vals)} {:trigger m.exits(st, vals)} :: m.value(st, vals) == f(vals) && !m.exits(st, vals)
  }

  function MapSeq(f: seq<Val> -> Val, vs: seq<Val>): seq<Val> {
    if vs == [] then [] else [f([vs[0]])] + MapSeq(f, vs[1..])
  }

  function FlatSeq(f: seq<Val> -> Val, vs: seq<Val>): seq<Val> {
    if vs == [] then [] else Elements(f([vs[0]])) + FlatSeq(f, vs[1..])
  }

  function FilterSeq(f: seq<Val> -> Val, vs: seq<Val>): seq<Val> {
    if vs == [] then [] else (if f([vs[0]]) == Unboxed(1) then [vs[0]] else []) + FilterSeq(f, vs[1..])
  }

  function FoldSeq(f: seq<Val> -> Val, acc: Val, vs: seq<Val>): Val
    decreases vs
  {
    if vs == [] then acc else FoldSeq(f, f([acc, vs[0]]), vs[1..])
  }

  lemma {:induction false} FlatFirst(y: Val, ys: seq<Val>)
    ensures Flat([y] + ys) == Elements(y) + Flat(ys)
  {
    if ys == [] {
      assert [y] + ys == [] + [y];
      FlatMore([], y);
    } else {
      var most, last := ys[..|ys| - 1], ys[|ys| - 1];
      assert [y] + ys == ([y] + most) + [last] && ys == most + [last];
      FlatFirst(y, most);
      FlatMore([y] + most, last);
      FlatMore(most, last);
    }
  }

  lemma ChooseFront(a: seq<Val>, b: seq<Val>, v: Val, y: Val)
    ensures Choose(a + b, v, y) == a + Choose(b, v, y)
  {
    assert a + (b + [v]) == (a + b) + [v];
  }

  lemma Unsnoc(x: Val, xs: seq<Val>)
    requires xs != []
    ensures [x] + xs == ([x] + xs[..|xs| - 1]) + [xs[|xs| - 1]] && xs == xs[..|xs| - 1] + [xs[|xs| - 1]]
  {
  }

  lemma {:induction false} PickedFirst(v: Val, vs: seq<Val>, y: Val, ys: seq<Val>)
    requires |vs| == |ys|
    ensures Picked([v] + vs, [y] + ys) == Choose([], v, y) + Picked(vs, ys)
    decreases |ys|, 0
  {
    if ys == [] {
      assert [y] + ys == [] + [y] && [v] + vs == [] + [v];
      PickedMore([], [], v, y);
    } else {
      PickedLast(v, vs[..|vs| - 1], vs[|vs| - 1], y, ys[..|ys| - 1], ys[|ys| - 1]);
      Unsnoc(v, vs);
      Unsnoc(y, ys);
    }
  }

  lemma {:induction false} PickedLast(v: Val, vs: seq<Val>, w: Val, y: Val, ys: seq<Val>, z: Val)
    requires |vs| == |ys|
    ensures Picked(([v] + vs) + [w], ([y] + ys) + [z]) == Choose([], v, y) + Picked(vs + [w], ys + [z])
    decreases |ys|, 1
  {
    PickedFirst(v, vs, y, ys);
    PickedMore([v] + vs, [y] + ys, w, z);
    PickedMore(vs, ys, w, z);
    ChooseFront(Choose([], v, y), Picked(vs, ys), w, z);
  }

  /** With such a closure the list functions are the functions of that name. */
  lemma {:induction false} PlainCalls<S(!new)>(m: Manner<S>, f: seq<Val> -> Val, st: S, vs: seq<Val>)
    requires Plain(m, f)
    ensures var c := Calls(m, st, vs);
      && !c.exited && c.replies == MapSeq(f, vs)
      && Flat(c.replies) == FlatSeq(f, vs) && Picked(vs, c.replies) == FilterSeq(f, vs)
    decreases vs
  {
    if vs != [] {
      var rest := Calls(m, m.next(st, [vs[0]]), vs[1..]);
      PlainCalls(m, f, m.next(st, [vs[0]]), vs[1..]);
      assert m.value(st, [vs[0]]) == f([vs[0]]) && !m.exits(st, [vs[0]]);
      FlatFirst(f([vs[0]]), rest.replies);
      MapLength(f, vs[1..]);
      PickedFirst(vs[0], vs[1..], f([vs[0]]), rest.replies);
      assert vs == [vs[0]] + vs[1..];
    }
  }

  lemma {:induction false} MapLength(f: seq<Val> -> Val, vs: seq<Val>)
    ensures |MapSeq(f, vs)| == |vs|
  {
    if vs != [] { MapLength(f, vs[1..]); }
  }

  lemma {:induction false} PlainFold<S(!new)>(m: Manner<S>, f: seq<Val> -> Val, st: S, acc: Val, vs: seq<Val>)
    requires Plain(m, f)
    ensures var c := FoldCalls(m, st, acc, vs); !c.exited && Folded(c) == FoldSeq(f, acc, vs)
    decreases vs
  {
    if vs != [] {
      var args := [acc, vs[0]];
      assert m.value(st, args) == f(args) && !m.exits(st, args);
      PlainFold(m, f, m.next(st, args), f(args), vs[1..]);
    }
  }

  // ---------- a closure that does what is asked ----------

  /** Gives up its arguments, says how often it was called before, and exits at call `k`. */
  function Counter(k: nat): Callback<nat> {
    (n: nat, h, args) => (if n == k then Exited else Returned(Raw(n)), n + 1, Drained(h, RefsOf(args)))
  }

  function CounterManner(k: nat): Manner<nat> {
    Manner((n, vals) => Unboxed(n), (n, vals) => n == k, (n, vals) => n + 1)
  }

  lemma DrainedKept(h: Heap, keep: multiset<Ref>, args: seq<Word>)
    requires Counted(h, keep + Ptrs(args))
    ensures Counted(Drained(h, RefsOf(args)), keep) && AllKept(h, Drained(h, RefsOf(args)), keep)
  {
    RefsPtrs(args);
    DrainedBooks(h, keep, RefsOf(args));
    var h' := Drained(h, RefsOf(args));
    forall w: Word, v | (w.Ptr? ==> w.ref in keep) && Means(h, w, v) ensures Kept(h, h', w, v) {
      if w.Ptr? { OwnedLives(h', keep, w.ref); }
      CountsKept(h, h', keep, w, v);
    }
  }

  lemma CounterIsHonest(k: nat)
    ensures Honest(Counter(k), CounterManner(k))
  {
    forall n: nat, h: Heap, keep: multiset<Ref>, args: seq<Word>, vals: seq<Val> | Counted(h, keep + Ptrs(args)) && AllMean(h, args, vals)
      ensures CallOk(Counter(k), CounterManner(k), n, h, keep, args, vals)
    {
      DrainedKept(h, keep, args);
    }
  }
}
