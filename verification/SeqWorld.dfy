/** What lazy sequences stand for, and the code that computes them: predicates, the thunks of the
    library, and thunks that cannot be seen. */
module SeqWorld {
  import opened RcHeap

  /** The elements a cell will yield, a bound on the reads it takes to yield them, and whether no
      code on the way to them exits or panics of its own accord. */
  datatype Mean = Mean(xs: seq<int>, rank: nat, calm: bool)

  /** How a read ends: with a step, or by leaving the reader, in a panic or in an exit to a
      handler further out. */
  datatype Outcome = Step(ref: Ref) | Panic | Exited

  /** What a closure has captured, each lazy cell by what it stands for. */
  datatype Cap = NoCap | Plain(value: int) | Tree(kind: Kind, parts: seq<Cap>) | Later(m: Mean)

  /** The code of a program: what each predicate answers, what each function gives, where either
      exits instead, what a thunk that is not of the library yields for what it has captured, and
      what running that one does to the heap. */
  datatype World = World(holds: (nat, int) -> bool, maps: (nat, int) -> int, quits: (nat, int) -> bool,
                         gives: (Cap, Mean) -> bool, run: (Heap, Ref) -> (Heap, Outcome))

  // ---------- predicates ----------

  predicate Passes(w: World, ps: seq<nat>, x: int) {
    forall i :: 0 <= i < |ps| ==> w.holds(ps[i], x)
  }

  function Filtered(w: World, ps: seq<nat>, xs: seq<int>): seq<int> {
    if xs == [] then [] else (if Passes(w, ps, xs[0]) then [xs[0]] else []) + Filtered(w, ps, xs[1..])
  }

  /** The first predicate that does not answer yes, at `i`, exits. */
  ghost predicate QuitsAt(w: World, ps: seq<nat>, x: int, i: nat) {
    i < |ps| && w.quits(ps[i], x) && forall j :: 0 <= j < i ==> w.holds(ps[j], x) && !w.quits(ps[j], x)
  }

  ghost predicate Quits(w: World, ps: seq<nat>, x: int) {
    exists i: nat :: QuitsAt(w, ps, x, i)
  }

  /** No element makes the predicates exit. */
  ghost predicate NeverQuits(w: World, ps: seq<nat>, xs: seq<int>) {
    forall i :: 0 <= i < |xs| ==> !Quits(w, ps, xs[i])
  }

  lemma PassesBoth(w: World, low: seq<nat>, high: seq<nat>, x: int)
    ensures Passes(w, low + high, x) <==> Passes(w, low, x) && Passes(w, high, x)
  {
    if Passes(w, low + high, x) {
      forall i | 0 <= i < |low| ensures w.holds(low[i], x) { assert (low + high)[i] == low[i]; }
      forall i | 0 <= i < |high| ensures w.holds(high[i], x) { assert (low + high)[|low| + i] == high[i]; }
    }
  }

  lemma QuitsBoth(w: World, low: seq<nat>, high: seq<nat>, x: int)
    requires Quits(w, low + high, x)
    ensures Quits(w, low, x) || (Passes(w, low, x) && Quits(w, high, x))
  {
    var ps := low + high;
    var i: nat :| QuitsAt(w, ps, x, i);
    if i < |low| {
      forall j | 0 <= j < i ensures w.holds(low[j], x) && !w.quits(low[j], x) { assert ps[j] == low[j]; }
      assert QuitsAt(w, low, x, i);
    } else {
      forall j | 0 <= j < |low| ensures w.holds(low[j], x) { assert ps[j] == low[j]; }
      forall j | 0 <= j < i - |low| ensures w.holds(high[j], x) && !w.quits(high[j], x) { assert ps[|low| + j] == high[j]; }
      assert QuitsAt(w, high, x, i - |low|);
    }
  }

  /** A stage over a stage is one stage that applies the lower predicates first: it yields the same
      elements, and exits on none that the two do not exit on. */
  lemma {:induction false} FilterTwice(w: World, low: seq<nat>, high: seq<nat>, xs: seq<int>)
    ensures Filtered(w, high, Filtered(w, low, xs)) == Filtered(w, low + high, xs)
    ensures NeverQuits(w, low, xs) && NeverQuits(w, high, Filtered(w, low, xs)) ==> NeverQuits(w, low + high, xs)
  {
    if xs != [] {
      var rest := Filtered(w, low, xs[1..]);
      FilterTwice(w, low, high, xs[1..]);
      PassesBoth(w, low, high, xs[0]);
      if Passes(w, low, xs[0]) { assert ([xs[0]] + rest)[1..] == rest; } else { assert [] + rest == rest; }
      if NeverQuits(w, low, xs) && NeverQuits(w, high, Filtered(w, low, xs)) {
        QuietParts(w, low, high, xs);
        forall i | 0 <= i < |xs| ensures !Quits(w, low + high, xs[i]) {
          if i > 0 { assert xs[i] == xs[1..][i - 1]; }
        }
      }
    }
  }

  lemma QuietParts(w: World, low: seq<nat>, high: seq<nat>, xs: seq<int>)
    requires xs != [] && NeverQuits(w, low, xs) && NeverQuits(w, high, Filtered(w, low, xs))
    ensures !Quits(w, low + high, xs[0])
    ensures NeverQuits(w, low, xs[1..]) && NeverQuits(w, high, Filtered(w, low, xs[1..]))
  {
    var all, rest := Filtered(w, low, xs), Filtered(w, low, xs[1..]);
    var k := if Passes(w, low, xs[0]) then 1 else 0;
    forall i | 0 <= i < |rest| ensures !Quits(w, high, rest[i]) { assert rest[i] == all[k + i]; }
    assert !Quits(w, low, xs[0]);
    assert Passes(w, low, xs[0]) ==> all[0] == xs[0] && !Quits(w, high, all[0]);
    if Quits(w, low + high, xs[0]) {
      QuitsBoth(w, low, high, xs[0]);
      assert false;
    }
  }

  /** What a stage over `src` stands for. */
  ghost predicate Stands(w: World, ps: seq<nat>, src: Mean, m: Mean) {
    && m.xs == Filtered(w, ps, src.xs) && src.rank < m.rank
    && (m.calm ==> src.calm && NeverQuits(w, ps, src.xs))
  }

  /** What is left of a stage once its first element has been judged. */
  lemma StandsOver(w: World, ps: seq<nat>, src: Mean, m: Mean, rest: Mean)
    requires Stands(w, ps, src, m) && src.xs != [] && rest.xs == src.xs[1..] && rest.rank < src.rank && (src.calm ==> rest.calm)
    ensures !Passes(w, ps, src.xs[0]) ==> Stands(w, ps, rest, m)
    ensures Passes(w, ps, src.xs[0]) ==>
      m.xs == [src.xs[0]] + Filtered(w, ps, rest.xs) && Stands(w, ps, rest, Mean(Filtered(w, ps, rest.xs), rest.rank + 1, m.calm))
    ensures m.calm ==> !Quits(w, ps, src.xs[0])
  {
    if m.calm {
      forall i | 0 <= i < |rest.xs| ensures !Quits(w, ps, rest.xs[i]) { assert rest.xs[i] == src.xs[i + 1]; }
    }
  }

  // ---------- the thunks of the library ----------

  const RANGE: nat := 1
  const MAP: nat := 2
  const TAKE_WHILE: nat := 3
  const TAKE: nat := 4
  const DROP: nat := 5

  predicate OfLibrary(code: nat) {
    RANGE <= code <= DROP
  }

  predicate IsStageCode(code: nat) {
    MAP <= code <= TAKE
  }

  predicate PastEnd(a: int, hi: int, gap: int) {
    (gap > 0 && a > hi) || (gap < 0 && a < hi)
  }

  function Range(a: int, hi: int, gap: int): seq<int>
    requires gap != 0
    decreases if gap > 0 then hi - a else a - hi
  {
    if PastEnd(a, hi, gap) then [] else [a] + Range(a + gap, hi, gap)
  }

  /** The numbers of a range: `a`, `a + gap` and so on, as far as none of them passes `hi`, and no
      further: the next one would pass it. */
  lemma {:induction false} RangeHolds(a: int, hi: int, gap: int)
    requires gap != 0
    ensures var xs := Range(a, hi, gap);
      && (forall i :: 0 <= i < |xs| ==> xs[i] == a + i * gap && (if gap > 0 then xs[i] <= hi else xs[i] >= hi))
      && (if gap > 0 then a + |xs| * gap > hi else a + |xs| * gap < hi)
    decreases if gap > 0 then hi - a else a - hi
  {
    if if gap > 0 then a <= hi else a >= hi {
      var xs, rest := Range(a, hi, gap), Range(a + gap, hi, gap);
      RangeHolds(a + gap, hi, gap);
      assert xs == [a] + rest;
      forall i | 0 <= i < |xs| ensures xs[i] == a + i * gap && (if gap > 0 then xs[i] <= hi else xs[i] >= hi) {
        if i > 0 {
          assert xs[i] == rest[i - 1] == a + gap + (i - 1) * gap;
        }
      }
      assert a + |xs| * gap == a + gap + |rest| * gap;
    }
  }

  /** What a range that has captured `ws` stands for. */
  predicate RangeStands(ws: seq<Word>, m: Mean) {
    && |ws| == 3 && ws[0].Raw? && ws[1].Raw? && ws[2].Raw? && ws[2].value != 0
    && m.xs == Range(ws[0].value, ws[1].value, ws[2].value) && |m.xs| <= m.rank
  }

  /** A stage that yields at most one element for each that it reads. */
  datatype LazyStage = MapEach(f: nat) | TakeWhile(p: nat) | TakeFirst(n: int)

  /** It yields nothing, and does not even read its source. */
  predicate Idle(g: LazyStage) {
    g.TakeFirst? && g.n <= 0
  }

  /** The element `x` is where it ends. */
  predicate Ends(w: World, g: LazyStage, x: int) {
    Idle(g) || (g.TakeWhile? && !w.holds(g.p, x))
  }

  function Turned(w: World, g: LazyStage, x: int): int {
    if g.MapEach? then w.maps(g.f, x) else x
  }

  /** The stage for the rest. */
  function Onward(g: LazyStage): LazyStage {
    if g.TakeFirst? then TakeFirst(g.n - 1) else g
  }

  function Staged(w: World, g: LazyStage, xs: seq<int>): seq<int>
    decreases xs
  {
    if xs == [] || Ends(w, g, xs[0]) then [] else [Turned(w, g, xs[0])] + Staged(w, Onward(g), xs[1..])
  }

  /** Its function exits instead of answering for `x`. */
  predicate Leaves(w: World, g: LazyStage, x: int) {
    !g.TakeFirst? && w.quits(if g.MapEach? then g.f else g.p, x)
  }

  /** The function of a `map` exits on the first element, or the predicate of a `take_while`. */
  predicate ExitsFirst(w: World, g: LazyStage, xs: seq<int>) {
    xs != [] && ((g.MapEach? && w.quits(g.f, xs[0])) || (g.TakeWhile? && w.quits(g.p, xs[0])))
  }

  predicate NeverLeaves(w: World, g: LazyStage, xs: seq<int>)
    decreases xs
  {
    xs == [] || Idle(g) || (!Leaves(w, g, xs[0]) && (Ends(w, g, xs[0]) || NeverLeaves(w, Onward(g), xs[1..])))
  }

  /** What the stage `g` over `src` stands for. */
  predicate StagedFrom(w: World, g: LazyStage, src: Mean, m: Mean) {
    && m.xs == Staged(w, g, src.xs) && src.rank < m.rank
    && (m.calm ==> Idle(g) || (src.calm && NeverLeaves(w, g, src.xs)))
  }

  function Dropped(n: int, xs: seq<int>): seq<int>
    decreases xs
  {
    if n <= 0 || xs == [] then xs else Dropped(n - 1, xs[1..])
  }

  predicate DroppedFrom(n: int, src: Mean, m: Mean) {
    m.xs == Dropped(n, src.xs) && src.rank < m.rank && (m.calm ==> src.calm)
  }

  // ---------- the stages are the functions of their names ----------

  lemma {:induction false} MapsEach(w: World, f: nat, xs: seq<int>)
    ensures |Staged(w, MapEach(f), xs)| == |xs|
    ensures forall i :: 0 <= i < |xs| ==> Staged(w, MapEach(f), xs)[i] == w.maps(f, xs[i])
  {
    if xs != [] { MapsEach(w, f, xs[1..]); }
  }

  lemma {:induction false} TakesFirst(w: World, n: int, xs: seq<int>)
    ensures Staged(w, TakeFirst(n), xs) == if n <= 0 then [] else if n < |xs| then xs[..n] else xs
    decreases xs
  {
    if xs != [] && n > 0 { TakesFirst(w, n - 1, xs[1..]); }
  }

  lemma {:induction false} DropsFirst(n: int, xs: seq<int>)
    ensures Dropped(n, xs) == if n <= 0 then xs else if n < |xs| then xs[n..] else []
    decreases xs
  {
    if xs != [] && n > 0 {
      DropsFirst(n - 1, xs[1..]);
    }
  }

  /** The longest beginning of which all elements pass. */
  lemma {:induction false} TakesWhile(w: World, p: nat, xs: seq<int>) returns (k: nat)
    ensures k <= |xs| && Staged(w, TakeWhile(p), xs) == xs[..k]
    ensures (forall i :: 0 <= i < k ==> w.holds(p, xs[i])) && (k < |xs| ==> !w.holds(p, xs[k]))
  {
    k := 0;
    if xs != [] && w.holds(p, xs[0]) {
      var j := TakesWhile(w, p, xs[1..]);
      k := j + 1;
      assert xs[..k] == [xs[0]] + xs[1..][..j];
    }
  }
}
