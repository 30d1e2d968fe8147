/** What a lazy sequence cell stands for, and what it means for a heap of such cells to agree
    with that. */
module SeqMeaning {
  import opened RcHeap
  import opened SeqPreds
  import opened Values
  import opened SeqWorld

  // ---------- what a closure has captured ----------

  ghost function Seen(v: Val, mean: seq<Mean>): Cap
    decreases v
  {
    match v
    case Absent => NoCap
    case Unboxed(i) => Plain(i)
    case Lazy(r) => if r < |mean| then Later(mean[r]) else NoCap
    case Node(kind, children) =>
      Tree(kind, seq(|children|, i requires 0 <= i < |children| => Seen(children[i], mean)))
  }

  /** The closure `t`, with what it has captured, yields `m`. */
  ghost predicate Fits(w: World, h: Heap, mean: seq<Mean>, t: Ref, m: Mean) {
    IsClosure(h, t) &&
      var code, ws := h[t].kind.code, h[t].slots;
      if code == RANGE then RangeStands(ws, m)
      else if IsStageCode(code) then FitsStage(w, h, mean, code, ws, m)
      else if code == DROP then HasSource(h, mean, ws) && ws[1].Raw? && DroppedFrom(ws[1].value, mean[ws[0].ref], m)
      else exists v :: Means(h, Ptr(t), v) && w.gives(Seen(v, mean), m)
  }

  ghost predicate HasSource(h: Heap, mean: seq<Mean>, ws: seq<Word>) {
    && |ws| == 2 && ws[0].Ptr? && ws[0].ref < |mean|
    && Live(h, ws[0].ref) && h[ws[0].ref].kind.SeqCell?
  }

  /** What a stage captures beside its source: a function, or a number. */
  predicate IsArgument(h: Heap, code: nat, arg: Word) {
    if code == TAKE then arg.Raw? else code in {MAP, TAKE_WHILE} && arg.Ptr? && IsClosure(h, arg.ref)
  }

  function StageOf(h: Heap, code: nat, arg: Word): LazyStage
    requires IsArgument(h, code, arg)
  {
    if code == TAKE then TakeFirst(arg.value)
    else if code == MAP then MapEach(h[arg.ref].kind.code)
    else TakeWhile(h[arg.ref].kind.code)
  }

  ghost predicate FitsStage(w: World, h: Heap, mean: seq<Mean>, code: nat, ws: seq<Word>, m: Mean) {
    HasSource(h, mean, ws) && IsArgument(h, code, ws[1]) && StagedFrom(w, StageOf(h, code, ws[1]), mean[ws[0].ref], m)
  }

  ghost predicate ChildrenIn(h: Heap, r: Ref, safe: iset<Ref>)
    requires Live(h, r)
  {
    forall i :: 0 <= i < |h[r].slots| && h[r].slots[i].Ptr? ==> h[r].slots[i].ref in safe
  }

  /** A lazy cell stays one of the same meaning, any other cell stays as it is. */
  ghost predicate StaysAs(h: Heap, h': Heap, mean: seq<Mean>, mean': seq<Mean>, safe: iset<Ref>, r: Ref) {
    Live(h, r) ==>
      && Live(h', r) && r < |mean| && r < |mean'| && mean'[r] == mean[r]
      && (if h[r].kind.SeqCell? then h'[r].kind.SeqCell? else Alike(h[r], h'[r]) && ChildrenIn(h, r, safe))
  }

  /** Nothing that can be reached from `safe` without reading a lazy cell has changed. */
  ghost predicate Safe(h: Heap, h': Heap, mean: seq<Mean>, mean': seq<Mean>, safe: iset<Ref>) {
    forall r: Ref :: r in safe ==> StaysAs(h, h', mean, mean', safe, r)
  }

  lemma {:induction false} SeenKept(h: Heap, h': Heap, mean: seq<Mean>, mean': seq<Mean>, safe: iset<Ref>, u: Word, v: Val)
    requires Safe(h, h', mean, mean', safe) && Means(h, u, v) && (u.Ptr? ==> u.ref in safe)
    ensures Means(h', u, v) && Seen(v, mean') == Seen(v, mean)
    decreases v
  {
    if u.Ptr? { assert StaysAs(h, h', mean, mean', safe, u.ref); }
    if v.Node? {
      forall i | 0 <= i < |v.children|
        ensures Means(h', h[u.ref].slots[i], v.children[i]) && Seen(v.children[i], mean') == Seen(v.children[i], mean)
      {
        SeenKept(h, h', mean, mean', safe, h[u.ref].slots[i], v.children[i]);
      }
    }
  }

  lemma FitsKept(w: World, h: Heap, h': Heap, mean: seq<Mean>, mean': seq<Mean>, safe: iset<Ref>, t: Ref, m: Mean)
    requires Safe(h, h', mean, mean', safe) && t in safe && Fits(w, h, mean, t, m)
    ensures Fits(w, h', mean', t, m)
  {
    assert StaysAs(h, h', mean, mean', safe, t);
    if IsStageCode(h[t].kind.code) || h[t].kind.code == DROP {
      var ws := h[t].slots;
      assert StaysAs(h, h', mean, mean', safe, ws[0].ref);
      assert ws[1].Ptr? ==> StaysAs(h, h', mean, mean', safe, ws[1].ref);
    } else if h[t].kind.code != RANGE {
      var v :| Means(h, Ptr(t), v) && w.gives(Seen(v, mean), m);
      SeenKept(h, h', mean, mean', safe, Ptr(t), v);
    }
  }

  // ---------- the heap agrees with the meanings ----------

  predicate IsSeq(h: Heap, r: Ref) {
    Live(h, r) && h[r].kind.SeqCell? && |h[r].slots| == 2
  }

  /** The head of a step: an unboxed element, or a box. */
  predicate IsElement(h: Heap, x: Word) {
    x.Raw? || (x.Ptr? && Live(h, x.ref) && h[x.ref].kind.BoxCell?)
  }

  function Element(h: Heap, x: Word): int
    requires IsElement(h, x)
  {
    if x.Raw? then x.value else h[x.ref].kind.payload
  }

  /** `step` is the empty step, or the first element and a cell for the rest. */
  ghost predicate StepOk(h: Heap, mean: seq<Mean>, step: Ref, m: Mean) {
    && Live(h, step) && h[step].kind.VariantCell? && |h| == |mean|
    && var ws := h[step].slots;
      if ws == [] then m.xs == [] else
        && |ws| == 2 && m.xs != [] && IsElement(h, ws[0]) && Element(h, ws[0]) == m.xs[0]
        && ws[1].Ptr? && IsSeq(h, ws[1].ref)
        && mean[ws[1].ref].xs == m.xs[1..] && mean[ws[1].ref].rank < m.rank && (m.calm ==> mean[ws[1].ref].calm)
  }

  /** What each state of a cell promises about the cell's meaning. */
  ghost predicate CellOk(w: World, h: Heap, mean: seq<Mean>, r: Ref)
    requires Live(h, r) && h[r].kind.SeqCell? && |h| == |mean|
  {
    var ws := h[r].slots;
    && |ws| == 2
    && match h[r].kind.state {
      case THUNK => ThunkOk(w, h, mean, r)
      case RUNNING => ThunkOk(w, h, mean, r)
      case DONE => ws[0].Ptr? && ws[1] == Null && StepOk(h, mean, ws[0].ref, mean[r])
      case FILTER => ws[1].Ptr? && IsPreds(h, ws[1].ref) && (ws[0] == Null || StageOk(w, h, mean, r))
      case FILTERING => ws[0] == Null && ws[1].Ptr? && IsPreds(h, ws[1].ref)
    }
  }

  ghost predicate ThunkOk(w: World, h: Heap, mean: seq<Mean>, r: Ref)
    requires Live(h, r) && |h| == |mean| && |h[r].slots| == 2
  {
    var ws := h[r].slots;
    ws[0].Ptr? && IsClosure(h, ws[0].ref) && ws[1] == Null && Fits(w, h, mean, ws[0].ref, mean[r])
  }

  ghost predicate StageOk(w: World, h: Heap, mean: seq<Mean>, r: Ref)
    requires Live(h, r) && |h| == |mean| && |h[r].slots| == 2
    requires h[r].slots[1].Ptr? && IsPreds(h, h[r].slots[1].ref)
  {
    var ws := h[r].slots;
    ws[0].Ptr? && IsSeq(h, ws[0].ref) && Stands(w, Codes(h, ws[1].ref), mean[ws[0].ref], mean[r])
  }

  ghost predicate Consistent(w: World, h: Heap, mean: seq<Mean>) {
    && |h| == |mean|
    && forall r: Ref :: Live(h, r) && h[r].kind.SeqCell? ==> CellOk(w, h, mean, r)
  }

  ghost predicate NoHolder(h: Heap, except: set<Ref>, x: Ref) {
    forall r: Ref, i :: Live(h, r) && r !in except && 0 <= i < |h[r].slots| ==> h[r].slots[i] != Ptr(x)
  }

  ghost predicate MildAt(h: Heap, h': Heap, except: set<Ref>, x: Ref) {
    Live(h', x) ==>
      && ((IsSeq(h, x) && IsSeq(h', x)) || NoHolder(h', except, x))
      && (Live(h, x) ==> !h[x].kind.ClosureCell?)
  }

  /** The cells that were written to are sequence cells still, or no other cell refers to them. */
  ghost predicate Mild(h: Heap, h': Heap, except: set<Ref>) {
    forall x <- except :: MildAt(h, h', except, x)
  }

  ghost predicate Shown(h: Heap, h': Heap, except: set<Ref>, r: Ref) {
    Live(h', r) && (r in except ==> IsSeq(h, r) && IsSeq(h', r))
  }

  lemma SlotShown(h: Heap, h': Heap, owned: multiset<Ref>, except: set<Ref>, r: Ref, i: nat)
    requires Mild(h, h', except) && Counted(h', owned)
    requires Live(h', r) && r !in except && i < |h'[r].slots| && h'[r].slots[i].Ptr?
    ensures Shown(h, h', except, h'[r].slots[i].ref)
  {
    var x := h'[r].slots[i].ref;
    SlotLives(h', owned, r, i);
    assert x in except ==> MildAt(h, h', except, x);
  }

  lemma MildFits(w: World, h: Heap, h': Heap, owned: multiset<Ref>, mean: seq<Mean>, mean': seq<Mean>, t: Ref, m: Mean, except: set<Ref>)
    requires Fits(w, h, mean, t, m) && Untouched(h, h', except) && Counted(h', owned) && Mild(h, h', except)
    requires |h| == |mean| && mean <= mean' && Shown(h, h', except, t)
    ensures Fits(w, h', mean', t, m)
  {
    var safe := iset r: Ref | Shown(h, h', except, r);
    forall r: Ref | r in safe ensures StaysAs(h, h', mean, mean', safe, r) {
      if Live(h, r) && !h[r].kind.SeqCell? {
        forall i | 0 <= i < |h[r].slots| && h[r].slots[i].Ptr? ensures h[r].slots[i].ref in safe {
          SlotShown(h, h', owned, except, r, i);
        }
      }
    }
    FitsKept(w, h, h', mean, mean', safe, t, m);
  }

  lemma SameStep(h: Heap, h': Heap, owned: multiset<Ref>, mean: seq<Mean>, mean': seq<Mean>, step: Ref, m: Mean, except: set<Ref>)
    requires StepOk(h, mean, step, m) && Shown(h, h', except, step) && Untouched(h, h', except) && Counted(h', owned)
    requires |mean'| == |h'| && mean <= mean' && Mild(h, h', except)
    ensures StepOk(h', mean', step, m)
  {
    var ws := h[step].slots;
    if ws != [] {
      if ws[0].Ptr? { SlotShown(h, h', owned, except, step, 0); }
      SlotShown(h, h', owned, except, step, 1);
    }
  }

  /** Freeing cells, changing counts, adding cells and rewriting other cells mildly keeps the agreement. */
  lemma SameCell(w: World, h: Heap, h': Heap, owned: multiset<Ref>, mean: seq<Mean>, mean': seq<Mean>, r: Ref, except: set<Ref>)
    requires |h| == |mean| && |mean'| == |h'| && mean <= mean' && Untouched(h, h', except) && Counted(h', owned)
    requires Live(h, r) && h[r].kind.SeqCell? && Live(h', r) && r !in except && CellOk(w, h, mean, r)
    requires Mild(h, h', except)
    ensures CellOk(w, h', mean', r)
  {
    var ws := h[r].slots;
    if ws[0].Ptr? { SlotShown(h, h', owned, except, r, 0); }
    if ws[1].Ptr? {
      SlotShown(h, h', owned, except, r, 1);
      MildPreds(h, h', owned, except, ws[1].ref);
    } else if h[r].kind.state == DONE {
      SameStep(h, h', owned, mean, mean', ws[0].ref, mean[r], except);
    } else {
      MildFits(w, h, h', owned, mean, mean', ws[0].ref, mean[r], except);
    }
  }

  lemma MildPreds(h: Heap, h': Heap, owned: multiset<Ref>, except: set<Ref>, p: Ref)
    requires IsPreds(h, p) && Shown(h, h', except, p) && Untouched(h, h', except) && Counted(h', owned) && Mild(h, h', except)
    ensures IsPreds(h', p) && Items(h', p) == Items(h, p) && Codes(h', p) == Codes(h, p)
  {
    forall r <- except | Live(h, r) && Live(h', r) ensures !h[r].kind.ClosureCell? { assert MildAt(h, h', except, r); }
    SamePreds(h, h', owned, except, p);
  }

  lemma StaysConsistent(w: World, h: Heap, h': Heap, owned: multiset<Ref>, mean: seq<Mean>)
    requires Consistent(w, h, mean) && OnlyCounts(h, h') && Counted(h', owned)
    ensures Consistent(w, h', mean)
  {
    forall r: Ref | Live(h', r) && h'[r].kind.SeqCell? ensures CellOk(w, h', mean, r) {
      SameCell(w, h, h', owned, mean, mean, r, {});
    }
  }

  /** A cell changes its own state; whoever refers to it sees only that it is still a cell
      of the same meaning. */
  lemma RestateConsistent(w: World, h: Heap, mean: seq<Mean>, r: Ref, c: Cell)
    requires Consistent(w, h, mean) && IsSeq(h, r)
    requires c.Cell? && c.kind.SeqCell? && |c.slots| == 2 && CellOk(w, h[r := c], mean, r)
    ensures Consistent(w, h[r := c], mean)
  {
    var h' := h[r := c];
    forall x: Ref | Live(h', x) && h'[x].kind.SeqCell? ensures CellOk(w, h', mean, x) {
      if x != r {
        assert CellOk(w, h, mean, x);
        if h[x].slots[1].Ptr? { KeepsPreds(h, r, c, h[x].slots[1].ref); }
        if h[x].kind.state in {THUNK, RUNNING} { KeepsFit(w, h, mean, r, c, h[x].slots[0].ref, mean[x]); }
      }
    }
  }

  lemma KeepsFit(w: World, h: Heap, mean: seq<Mean>, r: Ref, c: Cell, t: Ref, m: Mean)
    requires |mean| == |h| && IsSeq(h, r) && c.Cell? && c.kind.SeqCell? && Fits(w, h, mean, t, m)
    ensures Fits(w, h[r := c], mean, t, m)
  {
    var everything := iset x: Ref | Live(h, x) ==> Live(h[r := c], x);
    FitsKept(w, h, h[r := c], mean, mean, everything, t, m);
  }

  lemma KeepsPreds(h: Heap, r: Ref, c: Cell, p: Ref)
    requires IsPreds(h, p) && IsSeq(h, r) && c.Cell? && c.kind.SeqCell?
    ensures IsPreds(h[r := c], p) && Codes(h[r := c], p) == Codes(h, p)
  {
  }
}
